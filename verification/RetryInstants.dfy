/** What a caller that has to wait is told: the first instant that can help.
 */
module RetryInstants {
  import opened Clock
  import opened Policy
  import opened Ledger
  import opened Retention
  import opened Lane
  import opened Runs

  // Until `until` the window holds as many debits as the ceiling allows, and
  // from then on it holds fewer.
  ghost predicate BlockedUntil(events: seq<Event>, now: Time, until: Time, window: Duration, ceiling: int) {
    && now < until && ceiling <= Used(events, now, window)
    && (forall t :: now <= t < until ==> Used(events, t, window) == Used(events, now, window))
    && Used(events, until, window) < Used(events, now, window)
  }

  ghost predicate RollingBlocks(c: Config, events: seq<Event>, now: Time, until: Time) {
    && c.Numeric()
    && (|| BlockedUntil(events, now, until, THREE_HOURS, c.rolling3h)
        || BlockedUntil(events, now, until, HOUR, c.rolling1h)
        || BlockedUntil(events, now, until, TEN_MINUTES, c.rolling10m))
  }

  // What the wait is for, by its code, in the state `s` the check leaves: a
  // wait without an instant is for the lane alone.
  ghost predicate EndsExactly(c: Config, s: State, now: Time, code: AdmissionCode, until: Time) {
    match code
    case RollingBudgetExhausted => RollingBlocks(c, s.ledger, now, until)
    case Delayed => (s.inFlight && until == ZERO) || (s.lastStart != ZERO && now < until && until == s.lastStart + c.minimumStartInterval)
    case CooldownActive => now < until && until == s.cooldownUntil
    case UpstreamAllowanceExhausted => now < until && until == s.telemetry.resetAt
    case CircuitIsOpen =>
      now < until && ((s.circuit.state.OpenUntil? && until == s.circuit.openUntil) || (s.telemetry.upstream.UpstreamOpen? && until == s.telemetry.cooldownUntil))
    case _ => false
  }

  lemma LaterFloor(events: seq<Event>, floor: Time, later: Time)
    requires EarliestFirst(events, floor) && floor <= later
    ensures EarliestFirst(events, later)
  {
    forall i, j | Inverted(events, later, i, j)
      ensures Preceded(events, i, j)
    {
      assert Inverted(events, floor, i, j);
    }
  }

  lemma SortedComesFirst(events: seq<Event>, floor: Time)
    requires Sorted(events)
    ensures EarliestFirst(events, floor)
  {
  }

  // What has gone from the front counts in no window of three hours or less.
  lemma ExpiredCounts(events: seq<Event>, now: Time, t: Time, window: Duration)
    requires now <= t && window <= THREE_HOURS
    ensures Used(DropExpired(events, now - THREE_HOURS), t, window) == Used(events, t, window)
  {
    CountAfterDropExpired(events, now - THREE_HOURS, t - window);
  }

  lemma ExpiredComesFirst(events: seq<Event>, floor: Time, cutoff: Time)
    requires EarliestFirst(events, floor) && floor <= cutoff
    ensures EarliestFirst(DropExpired(events, cutoff), cutoff)
  {
    hide FirstAfter;
    var gone, after := FirstAfter(events, cutoff), DropExpired(events, cutoff);
    forall i, j | Inverted(after, cutoff, i, j)
      ensures Preceded(after, i, j)
    {
      assert Inverted(events, floor, gone + i, gone + j);
      var h :| 0 <= h < gone + i && events[gone + j].at <= events[h].at;
      assert after[h - gone] == events[h];
    }
  }

  lemma NextFreeBlocks(events: seq<Event>, now: Time, window: Duration, ceiling: int)
    requires EarliestFirst(events, now - THREE_HOURS) && window <= THREE_HOURS && ceiling > 0 && NextFree(events, now, window, ceiling) != ZERO
    ensures BlockedUntil(events, now, NextFree(events, now, window, ceiling), window, ceiling)
  {
    hide CountAfter, FirstAfter;
    LaterFloor(events, now - THREE_HOURS, now - window);
    NextFreeIsExact(events, now, window, ceiling);
  }

  lemma CheckedLedger(c: Config, s: State, request: Request, now: Time, at: Time, choice: Choice)
    ensures Check(c, s, request, now, at, choice).0.ledger == DropExpired(s.ledger, now - THREE_HOURS)
  {
    hide PruneRequests, YoungTasks, YoungAttempts, Keepers, RecentRates, ExpireTelemetry, CircuitChecked, GateVerdict, Touched, BudgetVerdict, DropExpired;
  }

  /** Every wait a check asks for ends at the first instant at which what holds
      the caller back lets go, whatever it is. */
  lemma WaitsEndExactly(c: Config, s: State, request: Request, now: Time, at: Time, choice: Choice)
    requires c.Valid() && EarliestFirst(s.ledger, now - THREE_HOURS)
    ensures var (s', verdict) := Check(c, s, request, now, at, choice); verdict.Wait? ==> EndsExactly(c, s', now, verdict.code, verdict.until)
  {
    hide Lane.Expire, NextFree, BlockedUntil, Touched, DropExpired, EarliestFirst;
    var s', verdict := Check(c, s, request, now, at, choice).0, Check(c, s, request, now, at, choice).1;
    CheckedLedger(c, s, request, now, at, choice);
    ExpiredComesFirst(s.ledger, now - THREE_HOURS, now - THREE_HOURS);
    if verdict.Wait? && verdict.code.RollingBudgetExhausted? {
      if NextFree(s'.ledger, now, THREE_HOURS, c.rolling3h) != ZERO {
        NextFreeBlocks(s'.ledger, now, THREE_HOURS, c.rolling3h);
      } else if NextFree(s'.ledger, now, HOUR, c.rolling1h) != ZERO {
        NextFreeBlocks(s'.ledger, now, HOUR, c.rolling1h);
      } else if NextFree(s'.ledger, now, TEN_MINUTES, c.rolling10m) != ZERO {
        NextFreeBlocks(s'.ledger, now, TEN_MINUTES, c.rolling10m);
      }
    }
  }

  // The verdict of a check that expires at `t` does not pass where a window
  // still holds its ceiling.
  lemma FullWindowBlocks(events: seq<Event>, t: Time, window: Duration, ceiling: int)
    requires ZERO < t && ceiling > 0 && window <= THREE_HOURS && ceiling <= Used(events, t, window)
    ensures NextFree(DropExpired(events, t - THREE_HOURS), t, window, ceiling) != ZERO
  {
    hide CountAfter, FirstAfter;
    ExpiredCounts(events, t, t, window);
    var live := DropExpired(events, t - THREE_HOURS);
    if FirstAfter(live, t - window) == |live| {
      CountAfterNone(live, t - window);
    }
  }

  /** Asking earlier is in vain: a request told to wait until some instant is not
      let through at any instant before it. */
  lemma NoEarlierAskHelps(c: Config, s: State, request: Request, now: Time, at: Time, choice: Choice, t: Time, at': Time, choice': Choice)
    requires c.Valid() && EarliestFirst(s.ledger, now - THREE_HOURS) && ZERO < now <= t
    requires var verdict := Check(c, s, request, now, at, choice).1; verdict.Wait? && t < verdict.until
    ensures !Check(c, Check(c, s, request, now, at, choice).0, request, t, at', choice').1.Pass?
  {
    hide PruneRequests, YoungTasks, YoungAttempts, Keepers, RecentRates, NextFree, BlockedUntil, Touched, DropExpired, EarliestFirst;
    var s', verdict := Check(c, s, request, now, at, choice).0, Check(c, s, request, now, at, choice).1;
    WaitsEndExactly(c, s, request, now, at, choice);
    CheckedLedger(c, s', request, t, at', choice');
    if verdict.code.RollingBudgetExhausted? {
      FullWindowsBlock(c, s'.ledger, now, verdict.until, t);
    }
  }

  lemma FullWindowsBlock(c: Config, events: seq<Event>, now: Time, until: Time, t: Time)
    requires c.Valid() && RollingBlocks(c, events, now, until) && ZERO < now <= t < until
    ensures var live := DropExpired(events, t - THREE_HOURS);
            || NextFree(live, t, THREE_HOURS, c.rolling3h) != ZERO
            || NextFree(live, t, HOUR, c.rolling1h) != ZERO
            || NextFree(live, t, TEN_MINUTES, c.rolling10m) != ZERO
  {
    hide NextFree, DropExpired, Used;
    if BlockedUntil(events, now, until, THREE_HOURS, c.rolling3h) {
      FullWindowBlocks(events, t, THREE_HOURS, c.rolling3h);
    } else if BlockedUntil(events, now, until, HOUR, c.rolling1h) {
      FullWindowBlocks(events, t, HOUR, c.rolling1h);
    } else {
      FullWindowBlocks(events, t, TEN_MINUTES, c.rolling10m);
    }
  }

  // ----- What a caller hears -----

  predicate Asks(step: Label) {
    step.Admit? || step.Look?
  }

  // The instant the caller read when it asked.
  function AskedAt(step: Label): Time
    requires Asks(step)
  {
    if step.Admit? then step.at else step.now
  }

  // The answer to a step that asks, and the state it leaves.
  function Answer(c: Config, w: World, step: Label): (State, Admission)
    requires Enabled(c, w, step) && Asks(step)
  {
    match step
    case Admit(request, at, observed, cancelled, pruned, checked) => TryAdmit(c, w.gov, request, at, observed, cancelled, pruned, checked)
    case Look(index, now, at, observed, cancelled, checked) => QueueCheck(c, w.gov, index, now, at, observed, cancelled, checked)
  }

  // A caller that does not queue finds the lane or the queue occupied.
  predicate Occupied(w: World, step: Label) {
    step.Admit? && (w.gov.inFlight || w.gov.queue != [])
  }

  // An answer that puts the caller off says until when: at an occupied lane
  // the earliest next start, otherwise the end of what holds it back.
  ghost predicate OffersExactly(c: Config, w: World, step: Label)
    requires Enabled(c, w, step) && Asks(step)
  {
    var (s', answer) := Answer(c, w, step);
    answer.Turned? && answer.code.Delayed? ==>
      if Occupied(w, step) then
        answer.reason.Delayed? && answer.retryAt == (if w.gov.lastStart == ZERO then step.at else w.gov.lastStart + c.minimumStartInterval)
      else EndsExactly(c, s', AskedAt(step), answer.reason, answer.retryAt)
  }

  lemma ObservingKeepsLedger(c: Config, s: State, observed: Option<TelemetrySnapshot>, now: Time)
    ensures Observe(c, s, observed, now).ledger == s.ledger
  {
  }

  lemma PruningKeepsLedger(s: State, now: Time, choice: Choice)
    ensures var s' := Prune(s, now, choice);
            s'.ledger == s.ledger && s'.inFlight == s.inFlight && s'.queue == s.queue && s'.lastStart == s.lastStart
  {
    hide PruneRequests, YoungTasks, YoungAttempts, Keepers;
  }

  lemma RefusalsSayNoDelay(c: Config, s: State, request: Request, now: Time, at: Time, choice: Choice)
    ensures var verdict := Check(c, s, request, now, at, choice).1; verdict.Refuse? ==> !verdict.code.Delayed?
  {
    hide Lane.Expire, CircuitChecked, NextFree, Touched;
  }

  lemma OffersAreExact(c: Config, w: World, step: Label)
    requires c.Valid() && Enabled(c, w, step) && Asks(step) && EarliestFirst(w.gov.ledger, AskedAt(step) - THREE_HOURS)
    ensures OffersExactly(c, w, step)
  {
    hide Check, Prune, Observe, EndsExactly, EarliestFirst;
    match step {
      case Admit(request, at, observed, cancelled, pruned, checked) =>
        RefusalsSayNoDelay(c, Observe(c, Prune(w.gov, at, pruned), observed, at), request, at, at, checked);
        var s1 := Prune(w.gov, at, pruned);
        PruningKeepsLedger(w.gov, at, pruned);
        ObservingKeepsLedger(c, s1, observed, at);
        WaitsEndExactly(c, Observe(c, s1, observed, at), request, at, at, checked);
      case Look(index, now, at, observed, cancelled, checked) =>
        ObservingKeepsLedger(c, w.gov, observed, now);
        WaitsEndExactly(c, Observe(c, w.gov, observed, now), w.gov.queue[index].request, now, at, checked);
        RefusalsSayNoDelay(c, Observe(c, w.gov, observed, now), w.gov.queue[index].request, now, at, checked);
    }
  }
}
