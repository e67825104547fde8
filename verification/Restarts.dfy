/** The limits hold through restarts.

    A life is a chain of processes of one account: each runs, saves its
    projection and ends, and the next starts from what was saved. Some
    processes restore the projection twice before they go on. What a process
    did after its last save is lost with it; an attempt is saved before its
    call goes out, so nothing unsaved was sent.
 */
module Restarts {
  import opened Clock
  import opened Policy
  import opened Ledger
  import opened Retention
  import opened AttemptReceipts
  import opened Lane
  import opened Runs
  import opened SingleLane
  import opened Windows
  import opened LedgerOrder
  import opened RetryInstants
  import opened ReceiptRuns
  import opened RateLimits
  import D = NoDoubleDebit
  import opened Genuine
  import opened Persistence

  datatype Restoring = Restoring(at: Time, evicted: Choice)

  // One process: its run, its last save, the restart that follows, and the
  // second restore of that restart if there is one.
  datatype Stretch = Stretch(steps: seq<Label>, saveAt: Time, saving: Choice, restart: Restoring, again: Option<Restoring>)

  function Woken(s: Stretch): Time {
    if s.again.Some? then s.again.value.at else s.restart.at
  }

  function Recovered(c: Config, s: State, stretch: Stretch): State {
    var saved := Saved(c, s, stretch.saveAt, stretch.saving);
    var once := Restarted(saved, stretch.restart.at, stretch.restart.evicted);
    if stretch.again.Some? then Restore(once, Project(saved), stretch.again.value.at, stretch.again.value.evicted) else once
  }

  // The next process begins with the saved protections and nobody in it; the
  // histories of the account go on.
  function Reawakened(c: Config, w: World, s: Stretch): World {
    World(Recovered(c, w.gov, s), [], 0, Woken(s), w.starts, w.rates, w.sightings)
  }

  predicate InTurn(w: World, s: Stretch) {
    w.clock <= s.saveAt <= s.restart.at <= Woken(s)
  }

  predicate Livable(c: Config, w: World, life: seq<Stretch>)
    decreases |life|
  {
    life == [] ||
    (Runnable(c, w, life[0].steps) &&
     var w1 := Run(c, w, life[0].steps);
     InTurn(w1, life[0]) && Livable(c, Reawakened(c, w1, life[0]), life[1..]))
  }

  function Live(c: Config, w: World, life: seq<Stretch>): World
    requires Livable(c, w, life)
    decreases |life|
  {
    if life == [] then w else Live(c, Reawakened(c, Run(c, w, life[0].steps), life[0]), life[1..])
  }

  // ----- One restart -----

  lemma RestoredParts(g: State, s: State, now: Time, choice: Choice)
    ensures var s' := Restore(g, Project(s), now, choice);
            && s'.inFlight == g.inFlight && s'.ledger == g.ledger + Dated(s.ledger) && s'.lastStart == s.lastStart
            && s'.nextAttempt == Max(g.nextAttempt, s.nextAttempt) && Unsafe(s') == Unsafe(s)
            && s'.attemptIDs == YoungAttempts(MergeSeen(g.attemptIDs, s.attemptIDs), now) - choice.attempts
  {
    hide PruneRequests, YoungTasks, YoungAttempts, Keepers, RestoreCircuit, Dated, MergeSeen;
  }

  // What a restart leaves of a saved ledger: itself, or twice over.
  lemma RecoveredParts(c: Config, s: State, stretch: Stretch)
    requires Readable(s)
    ensures var saved, s' := Saved(c, s, stretch.saveAt, stretch.saving), Recovered(c, s, stretch);
            && s'.ledger == (if stretch.again.Some? then saved.ledger + saved.ledger else saved.ledger)
            && s'.lastStart == s.lastStart && !s'.inFlight && s'.nextAttempt >= saved.nextAttempt
            && Aged(s, saved, stretch.saveAt) && Readable(saved) && (Unsafe(s) ==> Unsafe(s'))
  {
    hide Lane.Expire, Restore, Dated, Numbered, Aged;
    var saved := Saved(c, s, stretch.saveAt, stretch.saving);
    ExpireAges(c, s, stretch.saveAt, stretch.saving);
    SavedIsReadable(c, s, stretch.saveAt, stretch.saving);
    ExpireStaysUnsafe(c, s, stretch.saveAt, stretch.saving);
    DatedKeepsAll(saved.ledger);
    var once := Restarted(saved, stretch.restart.at, stretch.restart.evicted);
    RestoredParts(FRESH, saved, stretch.restart.at, stretch.restart.evicted);
    assert [] + saved.ledger == saved.ledger;
    if stretch.again.Some? {
      RestoredParts(once, saved, stretch.again.value.at, stretch.again.value.evicted);
    }
    LastStartKept(s, saved, stretch.saveAt);
  }

  lemma LastStartKept(s: State, s': State, now: Time)
    requires Aged(s, s', now)
    ensures s'.lastStart == s.lastStart
  {
  }

  lemma SavedIsReadable(c: Config, s: State, now: Time, choice: Choice)
    requires Readable(s)
    ensures Readable(Saved(c, s, now, choice))
  {
    hide Lane.Expire, D.IdsAged;
    ExpireAges(c, s, now, choice);
    D.ExpireAgesIds(c, s, now, choice, true);
    AgingKeepsNumbers(s, Lane.Expire(c, s, now, choice), now);
  }

  lemma ExpireStaysUnsafe(c: Config, s: State, now: Time, choice: Choice)
    ensures Unsafe(s) ==> Unsafe(Lane.Expire(c, s, now, choice))
  {
    hide Prune, RecentRates;
    PruneKeepsTelemetry(s, now, choice);
  }

  lemma PruneKeepsTelemetry(s: State, now: Time, choice: Choice)
    ensures Prune(s, now, choice).telemetry == s.telemetry
  {
    hide PruneRequests, YoungTasks, YoungAttempts, Keepers;
  }

  lemma ReawakeningIsReal(c: Config, w: World, s: Stretch)
    requires Real(w) && InTurn(w, s)
    ensures Real(Reawakened(c, w, s))
  {
    hide Recovered, Saved, Aged;
    RecoveredParts(c, w.gov, s);
    RecoveredNumbers(c, w.gov, s);
  }

  lemma RecoveredNumbers(c: Config, s: State, stretch: Stretch)
    requires Readable(s)
    ensures Numbered(Recovered(c, s, stretch))
  {
    hide Saved, Restore, Timed, MergeSeen, YoungAttempts;
    var saved := Saved(c, s, stretch.saveAt, stretch.saving);
    SavedIsReadable(c, s, stretch.saveAt, stretch.saving);
    RestoredParts(FRESH, saved, stretch.restart.at, stretch.restart.evicted);
    MergedNumbers(map[], saved.attemptIDs, stretch.restart.at, stretch.restart.evicted.attempts);
    if stretch.again.Some? {
      var once := Restarted(saved, stretch.restart.at, stretch.restart.evicted);
      RestoredParts(once, saved, stretch.again.value.at, stretch.again.value.evicted);
      MergedNumbers(once.attemptIDs, saved.attemptIDs, stretch.again.value.at, stretch.again.value.evicted.attempts);
    }
  }

  lemma MergedNumbers(known: map<Id, Time>, saved: map<Id, Time>, now: Time, evicted: set<Id>)
    requires forall id :: (id in known ==> ZERO < known[id]) && (id in saved ==> ZERO < saved[id])
    ensures var merged := YoungAttempts(MergeSeen(known, saved), now) - evicted; forall id :: id in merged ==> ZERO < merged[id]
  {
  }

  // ----- Order -----

  // Twice over, the earliest entry still comes first.
  lemma DoubledKeepsOrder(events: seq<Event>, floor: Time)
    requires EarliestFirst(events, floor)
    ensures EarliestFirst(events + events, floor)
  {
    var all, n := events + events, |events|;
    forall i, j | Inverted(all, floor, i, j)
      ensures Preceded(all, i, j)
    {
      var k := if j < n then j else j - n;
      assert all[k] == all[j] == events[k];
      if k < i {
        assert all[j].at <= all[k].at;
      } else {
        assert Inverted(events, floor, i, k);
        var h :| 0 <= h < i && events[k].at <= events[h].at;
        assert all[h] == events[h];
      }
    }
  }

  lemma ReawakeningIsInTime(c: Config, w: World, s: Stretch, once: bool)
    requires InTime(w, once) && Readable(w.gov) && InTurn(w, s) && (once ==> s.again.None?)
    ensures InTime(Reawakened(c, w, s), once)
  {
    hide Recovered, Saved, Aged, EarliestFirst, Sorted, Readable, Grown;
    var ledger, saved := w.gov.ledger, Saved(c, w.gov, s.saveAt, s.saving).ledger;
    RecoveredParts(c, w.gov, s);
    AgedIsGrown(w.gov, Saved(c, w.gov, s.saveAt, s.saving), s.saveAt);
    LaterIsGrown(ledger, saved, [], s.saveAt, Woken(s));
    NothingSorted();
    GrowingKeepsOrder(ledger, saved, [], w.clock - THREE_HOURS, w.clock, Woken(s));
    assert Bounded(saved, w.clock);
    DoubledKeepsOrder(saved, Woken(s) - THREE_HOURS);
  }

  lemma NothingSorted()
    ensures Sorted([])
  {
  }

  // ----- Limits -----

  lemma ReawakeningKeepsLimits(c: Config, w: World, s: Stretch, past: seq<Time>, over: nat)
    requires Limited(c, w, past, over) && Readable(w.gov) && InTurn(w, s)
    ensures Limited(c, Reawakened(c, w, s), past, over)
  {
    hide Recovered, Saved, Aged, AllPaced, Counted, Readable, Unsafe, OneLane;
    RecoveredParts(c, w.gov, s);
    NobodyInIt(c, w, s);
    OrderlyOrStopped(c, w, past, over);
    if over == 0 && Orderly(c, w, past) {
      assert past[..|past| - 0] == past;
      var saved := Saved(c, w.gov, s.saveAt, s.saving);
      AgingKeepsCounted(w.gov, saved, past, s.saveAt, w.clock, Woken(s));
      DoubledIsCounted(saved.ledger, past, Woken(s));
    }
  }

  lemma NobodyInIt(c: Config, w: World, s: Stretch)
    requires !Recovered(c, w.gov, s).inFlight
    ensures OneLane(Reawakened(c, w, s))
  {
    hide Recovered;
  }

  lemma DoubledIsCounted(ledger: seq<Event>, past: seq<Time>, clock: Time)
    requires Counted(ledger, past, clock)
    ensures Counted(ledger + ledger, past, clock)
  {
    forall cutoff, k | clock - THREE_HOURS <= cutoff && 0 <= k < |past| && past[k] > cutoff
      ensures |past| - k <= CountAfter(ledger + ledger, cutoff)
    {
      CountAfterConcat(ledger, ledger, cutoff);
    }
  }

  // The debits of a whole life, and those of its last debiting call.
  function LifeDebits(c: Config, w: World, life: seq<Stretch>): seq<Time>
    requires Livable(c, w, life)
    decreases |life|
  {
    if life == [] then []
    else DebitTimes(c, w, life[0].steps) + LifeDebits(c, Reawakened(c, Run(c, w, life[0].steps), life[0]), life[1..])
  }

  function LastDebits(c: Config, w: World, life: seq<Stretch>): nat
    requires Livable(c, w, life)
    decreases |life|
  {
    if life == [] then 0
    else
      var later := LastDebits(c, Reawakened(c, Run(c, w, life[0].steps), life[0]), life[1..]);
      if later > 0 then later else LastCallDebits(c, w, life[0].steps)
  }

  predicate RestoredOnce(life: seq<Stretch>) {
    forall i :: 0 <= i < |life| ==> life[i].again.None?
  }

  // All that a process keeps and the next one takes over.
  ghost predicate Lawful(c: Config, w: World, past: seq<Time>, over: nat, once: bool) {
    Limited(c, w, past, over) && InTime(w, once) && InTime(w, false) && Real(w)
  }

  lemma StretchKeepsLaw(c: Config, w: World, s: Stretch, past: seq<Time>, over: nat, once: bool)
    requires c.Valid() && Runnable(c, w, s.steps) && Lawful(c, w, past, over, once) && (once ==> s.again.None?)
    requires InTurn(Run(c, w, s.steps), s)
    ensures var last := LastCallDebits(c, w, s.steps);
            Lawful(c, Reawakened(c, Run(c, w, s.steps), s), past + DebitTimes(c, w, s.steps), if last > 0 then Excess(last) else over, once)
  {
    hide Run, Runnable, Limited, InTime, Reawakened, InTurn, Readable;
    var w1, last := Run(c, w, s.steps), LastCallDebits(c, w, s.steps);
    RunKeepsLimits(c, w, s.steps, past, over);
    RunKeepsTime(c, w, s.steps, once);
    RunKeepsTime(c, w, s.steps, false);
    RunKeepsReal(c, w, s.steps);
    ReawakeningKeepsLimits(c, w1, s, past + DebitTimes(c, w, s.steps), if last > 0 then Excess(last) else over);
    ReawakeningIsInTime(c, w1, s, once);
    ReawakeningIsInTime(c, w1, s, false);
    ReawakeningIsReal(c, w1, s);
  }

  lemma {:induction false} LifeKeepsLaw(c: Config, w: World, life: seq<Stretch>, past: seq<Time>, over: nat, once: bool)
    requires c.Valid() && Livable(c, w, life) && Lawful(c, w, past, over, once) && (once ==> RestoredOnce(life))
    ensures var last := LastDebits(c, w, life);
            Lawful(c, Live(c, w, life), past + LifeDebits(c, w, life), if last > 0 then Excess(last) else over, once)
    decreases |life|
  {
    hide Run, Runnable, Lawful, Reawakened, DebitTimes, LastCallDebits, InTurn;
    if life == [] {
      assert past + [] == past;
    } else {
      var w1, here, last := Run(c, w, life[0].steps), past + DebitTimes(c, w, life[0].steps), LastCallDebits(c, w, life[0].steps);
      StretchKeepsLaw(c, w, life[0], past, over, once);
      LifeKeepsLaw(c, Reawakened(c, w1, life[0]), life[1..], here, if last > 0 then Excess(last) else over, once);
      assert here + LifeDebits(c, Reawakened(c, w1, life[0]), life[1..]) == past + LifeDebits(c, w, life);
    }
  }

  lemma BeginningIsLawful(c: Config, clock: Time, once: bool)
    requires ZERO < clock
    ensures Lawful(c, Initially(clock), [], 0, once)
  {
    hide Limited, InTime, Real;
    FreshIsLimited(c, clock);
    FreshIsReal(clock);
  }

  /** Through any number of restarts, the projection restored once or twice,
      and whatever calls were made: no rolling window holds more debits than
      its ceiling and debits are the minimum interval apart, at every instant;
      unless the lane has stopped for good, when the call that stopped it may
      have made all its debits but one in excess. */
  lemma NoWindowExceedsItsCeilingEver(c: Config, clock: Time, life: seq<Stretch>, t: Time)
    requires c.Valid() && ZERO < clock && Livable(c, Initially(clock), life)
    ensures var w, debits := Live(c, Initially(clock), life), LifeDebits(c, Initially(clock), life);
            var over := Excess(LastDebits(c, Initially(clock), life));
            && (!Unsafe(w.gov) ==> over == 0) && Ceilings(c, debits, over, t) && Spaced(c, debits, over)
  {
    hide Livable, Live, Limited, LifeDebits, LastDebits, Ceilings, Spaced, Unsafe;
    BeginningIsLawful(c, clock, false);
    LifeKeepsLaw(c, Initially(clock), life, [], 0, false);
    assert [] + LifeDebits(c, Initially(clock), life) == LifeDebits(c, Initially(clock), life);
    LimitedMeans(c, Live(c, Initially(clock), life), LifeDebits(c, Initially(clock), life), Excess(LastDebits(c, Initially(clock), life)), t);
  }

  /** Through any number of restarts, and at any point of the process running
      then, a caller that asks at the clock or later and is put off hears the
      first instant that can help, even where the projection was restored
      twice; where it never was, the ledger is in time order and the same holds
      for a caller with an older reading. */
  lemma RetryInstantIsExactEver(c: Config, clock: Time, life: seq<Stretch>, steps: seq<Label>, step: Label)
    requires c.Valid() && ZERO < clock && Livable(c, Initially(clock), life) && Runnable(c, Live(c, Initially(clock), life), steps)
    requires Enabled(c, Run(c, Live(c, Initially(clock), life), steps), step) && Asks(step)
    ensures var w := Run(c, Live(c, Initially(clock), life), steps);
            && (RestoredOnce(life) ==> Sorted(w.gov.ledger))
            && (RestoredOnce(life) || w.clock <= AskedAt(step) ==> OffersExactly(c, w, step))
  {
    hide Livable, Live, Runnable, Run, Limited, LifeDebits, LastDebits, Real, EarliestFirst, Sorted, RestoredOnce, OffersExactly, Enabled;
    var once := RestoredOnce(life);
    BeginningIsLawful(c, clock, once);
    LifeKeepsLaw(c, Initially(clock), life, [], 0, once);
    RunKeepsTime(c, Live(c, Initially(clock), life), steps, once);
    var w := Run(c, Live(c, Initially(clock), life), steps);
    if once {
      SortedComesFirst(w.gov.ledger, AskedAt(step) - THREE_HOURS);
      OffersAreExact(c, w, step);
    } else if w.clock <= AskedAt(step) {
      LaterFloor(w.gov.ledger, w.clock - THREE_HOURS, AskedAt(step) - THREE_HOURS);
      OffersAreExact(c, w, step);
    }
  }

  // ----- Single debits -----

  predicate EvictsNoId(s: Stretch) {
    s.saving.attempts == s.restart.evicted.attempts == {} && (s.again.Some? ==> s.again.value.evicted.attempts == {})
  }

  lemma ReawakeningKeepsHonest(c: Config, w: World, s: Stretch)
    requires D.Honest(w) && InTurn(w, s) && EvictsNoId(s)
    ensures D.Honest(Reawakened(c, w, s))
  {
    hide Lane.Expire, Restore, D.Distinct, MergeSeen, D.IdsAged;
    var saved, once := Saved(c, w.gov, s.saveAt, s.saving), Restarted(Saved(c, w.gov, s.saveAt, s.saving), s.restart.at, s.restart.evicted);
    D.ExpireAgesIds(c, w.gov, s.saveAt, s.saving, false);
    D.AgingKeepsRecollection(w.gov, saved, w.sightings, s.saveAt, w.clock, s.saveAt);
    RestoredParts(FRESH, saved, s.restart.at, s.restart.evicted);
    RestoringKeepsRecollection(FRESH, saved, once, w.sightings, s.saveAt, s.restart.at);
    if s.again.Some? {
      RestoredParts(once, saved, s.again.value.at, s.again.value.evicted);
      RestoringKeepsRecollection(once, saved, Reawakened(c, w, s).gov, w.sightings, s.saveAt, s.again.value.at);
    }
  }

  lemma RestoringKeepsRecollection(g: State, s: State, s': State, sightings: seq<Sighting>, saved: Time, restart: Time)
    requires D.Recollects(s, sightings, saved) && saved <= restart
    requires s'.attemptIDs == YoungAttempts(MergeSeen(g.attemptIDs, s.attemptIDs), restart) - {}
    requires forall id :: id in g.attemptIDs ==> id in s.attemptIDs && g.attemptIDs[id] == s.attemptIDs[id]
    ensures D.Recollects(s', sightings, restart)
    ensures forall id :: id in s'.attemptIDs ==> id in s.attemptIDs && s'.attemptIDs[id] == s.attemptIDs[id]
  {
  }

  // Every process keeps the identity cap out of reach and its calls short.
  predicate Moderate(c: Config, w: World, life: seq<Stretch>)
    requires Livable(c, w, life)
    decreases |life|
  {
    life == [] ||
    (&& (forall i :: 0 <= i < |life[0].steps| ==> D.UncappedStep(life[0].steps[i]))
     && EvictsNoId(life[0]) && D.AllPrompt(c, w, life[0].steps)
     && Moderate(c, Reawakened(c, Run(c, w, life[0].steps), life[0]), life[1..]))
  }

  lemma {:induction false} LifeKeepsHonest(c: Config, w: World, life: seq<Stretch>)
    requires Livable(c, w, life) && Moderate(c, w, life) && D.Honest(w)
    ensures D.Honest(Live(c, w, life))
    decreases |life|
  {
    hide Run, Runnable, D.Honest, D.UncappedStep, D.AllPrompt, Reawakened, InTurn, EvictsNoId;
    if life != [] {
      D.RunKeepsHonest(c, w, life[0].steps);
      var w1 := Run(c, w, life[0].steps);
      ReawakeningKeepsHonest(c, w1, life[0]);
      LifeKeepsHonest(c, Reawakened(c, w1, life[0]), life[1..]);
    }
  }

  /** Through any number of restarts no attempt is debited twice for its
      receipts: the identities saved with each debit are recognised again. */
  lemma NoAttemptIsDebitedTwiceEver(c: Config, clock: Time, life: seq<Stretch>)
    requires ZERO < clock && Livable(c, Initially(clock), life) && Moderate(c, Initially(clock), life)
    ensures var debited := Live(c, Initially(clock), life).sightings;
            forall i, j :: 0 <= i < j < |debited| ==> debited[i].id != debited[j].id || debited[i].startedAt != debited[j].startedAt
  {
    hide Livable, Live, Moderate, D.Recollects;
    D.NothingToRecollect(clock);
    LifeKeepsHonest(c, Initially(clock), life);
  }
}
