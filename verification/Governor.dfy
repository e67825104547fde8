/** The account governor and its permits, as the objects the program keeps.

    Every method is one locked section: it updates the governor's fields step
    by step and is proved to move the governor's `View` exactly as the function
    of the same name in `Lane` says. Clock readings, the jitter drawn and the
    telemetry snapshot read before the section are arguments; which equally old
    entries a cap evicted comes back as a ghost result.
 */
module AccountGovernor {
  import opened Clock
  import opened Policy
  import opened Ledger
  import opened Retention
  import opened AttemptReceipts
  import opened Lane

  // The oldest entry of `ages` among `candidates`, met in map order.
  method Oldest(ages: map<Id, Time>, candidates: set<Id>) returns (found: bool, oldest: Id)
    requires candidates <= ages.Keys
    ensures found <==> candidates != {}
    ensures found ==> oldest in candidates && forall id :: id in candidates ==> ages[oldest] <= ages[id]
  {
    found, oldest := false, "";
    var rest := candidates;
    while rest != {}
      invariant rest <= candidates
      invariant found <==> rest != candidates
      invariant found ==> oldest in candidates && forall id :: id in candidates - rest ==> ages[oldest] <= ages[id]
      decreases rest
    {
      var id :| id in rest;
      if !found || ages[id] < ages[oldest] {
        oldest := id;
      }
      found := true;
      rest := rest - {id};
    }
  }

  // Removes oldest entries until at most `cap` remain or none is removable.
  method Evict(ages: map<Id, Time>, removable: set<Id>, cap: nat) returns (evicted: set<Id>)
    requires removable <= ages.Keys
    ensures OldestFirst(ages, removable, cap, evicted)
  {
    evicted := {};
    var left := ages.Keys;
    while |left| > cap
      invariant evicted <= removable && left == ages.Keys - evicted
      invariant |left| == |ages| - |evicted|
      invariant |evicted| <= Max(0, |ages| - cap)
      invariant forall gone, kept :: gone in evicted && kept in removable - evicted ==> ages[gone] <= ages[kept]
      decreases |left|
    {
      var found, oldest := Oldest(ages, removable - evicted);
      if !found {
        assert evicted == removable;
        return;
      }
      evicted, left := evicted + {oldest}, left - {oldest};
    }
    SubsetSize(evicted, removable);
  }

  // Forgets receipt identities older than the retention window, then the
  // oldest ones past the cap.
  method PruneAttempts(seen: map<Id, Time>, now: Time) returns (kept: map<Id, Time>, ghost evicted: set<Id>)
    ensures AttemptsFit(seen, now, evicted)
    ensures kept == YoungAttempts(seen, now) - evicted
  {
    var cutoff := now - RETENTION;
    kept := seen;
    var rest := seen.Keys;
    while rest != {}
      invariant rest <= seen.Keys
      invariant kept == map id | id in seen && (id in rest || seen[id] >= cutoff) :: seen[id]
      decreases rest
    {
      var id :| id in rest;
      if kept[id] < cutoff {
        kept := kept - {id};
      }
      rest := rest - {id};
    }
    assert kept == YoungAttempts(seen, now);
    var gone := Evict(kept, kept.Keys, MAX_ATTEMPT_IDS);
    kept := kept - gone;
    evicted := gone;
  }

  method ScanCompleted(entries: seq<Completion>, known: map<Id, Record>, cutoff: Time)
    returns (kept: seq<Completion>, ids: map<Id, Record>)
    ensures kept == Scan(entries, known, cutoff).0 && ids == Scan(entries, known, cutoff).1
  {
    kept, ids := [], known;
    var i := 0;
    assert entries[0..] == entries;
    while i < |entries|
      invariant 0 <= i <= |entries|
      invariant Scan(entries, known, cutoff).0 == kept + Scan(entries[i..], ids, cutoff).0
      invariant Scan(entries, known, cutoff).1 == Scan(entries[i..], ids, cutoff).1
    {
      var entry := entries[i];
      assert entries[i..][1..] == entries[i + 1..];
      if entry.id in ids && ids[entry.id] == Completed(entry.at) {
        if entry.at <= cutoff {
          ids := ids - {entry.id};
        } else {
          kept := kept + [entry];
        }
      }
      i := i + 1;
    }
  }

  method TrimCompleted(entries: seq<Completion>, known: map<Id, Record>) returns (kept: seq<Completion>, ids: map<Id, Record>)
    ensures kept == Trim(entries, known).0 && ids == Trim(entries, known).1
  {
    kept, ids := entries, known;
    while |kept| > MAX_COMPLETED
      invariant Trim(entries, known) == Trim(kept, ids)
    {
      var entry := kept[0];
      kept := kept[1..];
      if entry.id in ids && ids[entry.id] == Completed(entry.at) {
        ids := ids - {entry.id};
      }
    }
  }

  method TaskProtected(task: Id, inFlight: bool, activeTask: Id, queue: seq<Waiter>) returns (protected: bool)
    ensures protected <==> task in Keepers(inFlight, activeTask, queue)
  {
    if inFlight && activeTask == task {
      return true;
    }
    var i := 0;
    while i < |queue|
      invariant 0 <= i <= |queue|
      invariant forall j :: 0 <= j < i ==> queue[j].request.task != task
    {
      if queue[i].request.task == task {
        return true;
      }
      i := i + 1;
    }
    return false;
  }

  // Drops task counters untouched for the retention window and returns the
  // keys the cap may still evict.
  method DropStaleTasks(tasks: map<Id, Task>, inFlight: bool, activeTask: Id, queue: seq<Waiter>, now: Time)
    returns (kept: map<Id, Task>, removable: set<Id>)
    ensures kept == YoungTasks(tasks, Keepers(inFlight, activeTask, queue), now)
    ensures removable == kept.Keys - Keepers(inFlight, activeTask, queue)
  {
    ghost var protected := Keepers(inFlight, activeTask, queue);
    kept := tasks;
    removable := {};
    var rest := tasks.Keys;
    while rest != {}
      invariant rest <= tasks.Keys
      invariant kept == map id | id in tasks && (id in rest || id in protected || tasks[id].lastTouched > now - RETENTION) :: tasks[id]
      invariant removable == kept.Keys - protected - rest
      decreases rest
    {
      var id :| id in rest;
      var keep := TaskProtected(id, inFlight, activeTask, queue);
      if !keep {
        if tasks[id].lastTouched > now - RETENTION {
          removable := removable + {id};
        } else {
          kept := kept - {id};
        }
      }
      rest := rest - {id};
    }
  }

  // Drops stale counters, then the oldest unprotected ones past the cap.
  method PruneTasks(tasks: map<Id, Task>, inFlight: bool, activeTask: Id, queue: seq<Waiter>, now: Time)
    returns (kept: map<Id, Task>, ghost evicted: set<Id>)
    ensures TasksFit(tasks, Keepers(inFlight, activeTask, queue), now, evicted)
    ensures kept == YoungTasks(tasks, Keepers(inFlight, activeTask, queue), now) - evicted
  {
    var young, removable := DropStaleTasks(tasks, inFlight, activeTask, queue, now);
    var gone := Evict(Ages(young), removable, MAX_TASKS);
    kept, evicted := young - gone, gone;
  }

  method Retain(tasks: map<Id, Task>, inFlight: bool, activeTask: Id, queue: seq<Waiter>, attempts: map<Id, Time>,
                entries: seq<Completion>, known: map<Id, Record>, now: Time)
    returns (keptTasks: map<Id, Task>, keptAttempts: map<Id, Time>, keptEntries: seq<Completion>, ids: map<Id, Record>, ghost choice: Choice)
    ensures ChoiceFits(tasks, attempts, Keepers(inFlight, activeTask, queue), now, choice)
    ensures keptTasks == YoungTasks(tasks, Keepers(inFlight, activeTask, queue), now) - choice.tasks
    ensures keptAttempts == YoungAttempts(attempts, now) - choice.attempts
    ensures keptEntries == PruneRequests(entries, known, now).0 && ids == PruneRequests(entries, known, now).1
  {
    ghost var evictedAttempts, evictedTasks;
    keptAttempts, evictedAttempts := PruneAttempts(attempts, now);
    keptEntries, ids := ScanCompleted(entries, known, now - RETENTION);
    keptEntries, ids := TrimCompleted(keptEntries, ids);
    keptTasks, evictedTasks := PruneTasks(tasks, inFlight, activeTask, queue, now);
    choice := Choice(evictedTasks, evictedAttempts);
  }

  method ChooseBackoff(sequence: nat, outcome: Outcome, now: Time, jitter: Duration) returns (selected: Duration)
    requires sequence > 0
    ensures selected == SelectedBackoff(sequence, outcome, now, jitter)
  {
    var base := [15_000_000_000, 30_000_000_000, 60_000_000_000, 120_000_000_000];
    var baseline := base[Min(sequence - 1, |base| - 1)];
    selected := jitter;
    if selected < baseline {
      selected := baseline;
    }
    var authoritativeUntil := ZERO;
    if outcome.retryAfter > 0 {
      authoritativeUntil := now + outcome.retryAfter;
    }
    if outcome.resetAt > authoritativeUntil {
      authoritativeUntil := outcome.resetAt;
    }
    if authoritativeUntil != ZERO {
      selected := authoritativeUntil - now;
    }
  }

  method CountRateResponse(config: Config, circuit: Circuit, outcome: Outcome, now: Time) returns (data: Circuit)
    ensures data == RateResponse(config, circuit, outcome, now)
  {
    data := circuit.(rateEvents := circuit.rateEvents + [now]);
    if data.lastRateReset != ZERO && outcome.resetAt > now && now < data.lastRateReset {
      var openUntil := data.lastRateReset + config.resetSafetyMargin;
      if outcome.resetAt + config.resetSafetyMargin > openUntil {
        openUntil := outcome.resetAt + config.resetSafetyMargin;
      }
      data := Transition(data, OpenUntil, RateCapacity, openUntil);
    }
    if outcome.resetAt != ZERO {
      data := data.(lastRateReset := outcome.resetAt);
    }
    if |data.rateEvents| >= config.rateResponseThreshold {
      data := Transition(data, HumanReviewRequired, RateCapacity, ZERO);
    }
  }

  // The remaining counter after a snapshot: replaced when the snapshot opens a
  // new allowance window, otherwise only lowered.
  method ObserveRemaining(known: Telemetry, snapshot: TelemetrySnapshot, now: Time) returns (data: Telemetry)
    ensures data == known.(available := TelemetryAfter(known, snapshot, now).available, resetAt := TelemetryAfter(known, snapshot, now).resetAt)
  {
    data := known;
    if snapshot.resetAt > now {
      if data.resetAt == ZERO || data.resetAt != snapshot.resetAt || !(now < data.resetAt) {
        data := data.(available := snapshot.remaining);
      } else if snapshot.remaining.Some? && (data.available.None? || snapshot.remaining.value < data.available.value) {
        data := data.(available := snapshot.remaining);
      }
      data := data.(resetAt := snapshot.resetAt);
    } else if snapshot.remaining.Some? && (data.available.None? || snapshot.remaining.value < data.available.value) {
      data := data.(available := snapshot.remaining);
    }
  }

  method ObserveCooldown(known: Time, snapshot: TelemetrySnapshot, now: Time) returns (until: Time)
    ensures until == CooldownAfter(known, snapshot, now)
  {
    until := known;
    if snapshot.cooldownUntil > until {
      until := snapshot.cooldownUntil;
    }
    if snapshot.retryAfter > 0 {
      var guided := now + snapshot.retryAfter;
      if guided > until {
        until := guided;
      }
    }
  }

  method ObserveTelemetry(known: Telemetry, snapshot: TelemetrySnapshot, now: Time) returns (data: Telemetry)
    ensures data == TelemetryAfter(known, snapshot, now)
  {
    data := ObserveRemaining(known, snapshot, now);
    if snapshot.routeMismatch {
      data := data.(unsafe := true);
    }
    var until := ObserveCooldown(data.cooldownUntil, snapshot, now);
    if snapshot.upstream.UpstreamOpen? && snapshot.resetAt > until {
      until := snapshot.resetAt;
    }
    data := data.(cooldownUntil := until, rateLimited := snapshot.rateLimited, capacityExhausted := snapshot.capacityExhausted);
    if !snapshot.upstream.UpstreamUnknown? {
      data := data.(upstream := snapshot.upstream);
    }
  }

  method ObserveCircuit(config: Config, known: Circuit, previousReset: Time, snapshot: TelemetrySnapshot, now: Time)
    returns (data: Circuit)
    ensures data == CircuitAfter(config, known, previousReset, snapshot, now)
  {
    data := known;
    if (snapshot.rateLimited || snapshot.capacityExhausted) && previousReset > now && snapshot.resetAt > now {
      var openUntil := previousReset;
      if snapshot.resetAt > openUntil {
        openUntil := snapshot.resetAt;
      }
      data := Transition(data, OpenUntil, RateCapacity, openUntil + config.resetSafetyMargin);
    }
  }

  // Bisection for the first rate event after the cutoff; earlier ones go.
  method DropOldRates(config: Config, events: seq<Time>, now: Time) returns (recent: seq<Time>)
    ensures recent == RecentRates(config, events, now)
  {
    var cutoff := now - config.rateResponseWindow;
    var lo, hi := 0, |events|;
    while lo < hi
      invariant 0 <= lo <= hi <= |events|
      invariant Bisect(events, cutoff, 0, |events|) == Bisect(events, cutoff, lo, hi)
    {
      var mid := (lo + hi) / 2;
      if !(events[mid] > cutoff) {
        lo := mid + 1;
      } else {
        hi := mid;
      }
    }
    recent := events[lo..];
  }

  method DropPassedReset(known: Telemetry, now: Time) returns (data: Telemetry)
    ensures data == ExpireTelemetry(known, now)
  {
    data := known;
    if data.resetAt != ZERO && !(now < data.resetAt) {
      data := data.(available := None, resetAt := ZERO);
      data := data.(rateLimited := false, capacityExhausted := false);
      data := data.(cooldownUntil := ZERO);
    }
  }

  method Reclassify(reported: Outcome) returns (outcome: Outcome)
    ensures outcome == AsRecorded(reported)
  {
    outcome := reported;
    if outcome.class_.Unclassified? {
      outcome := outcome.(class_ := UncertainReached);
    }
    if outcome.class_.CancelledBeforeUpstream? && Effective(outcome.delivery) != NotSent {
      outcome := outcome.(class_ := UncertainReached);
    }
  }

  method CountOtherResponse(circuit: Circuit, class_: OutcomeClass) returns (data: Circuit)
    ensures data == OtherResponse(circuit, class_)
  {
    data := circuit;
    if class_.AuthenticationExpired? {
      data := data.(refreshRequired := true);
      data := Transition(data, OpenUntil, class_, ZERO);
    } else if SecuritySignal(class_) {
      data := Transition(data, HumanReviewRequired, class_, ZERO);
    }
  }

  lemma UnseenStep(novel: seq<Receipt>, receipts: seq<Receipt>, i: nat, seen: map<Id, Time>)
    requires i < |receipts|
    ensures novel + Unseen(receipts[i..], seen)
         == (if receipts[i].attemptID in seen then novel else novel + [receipts[i]]) + Unseen(receipts[i + 1..], seen)
  {
    assert receipts[i..][1..] == receipts[i + 1..];
  }

  // The receipts whose identity has not been seen, in order.
  method SelectUnseen(receipts: seq<Receipt>, seen: map<Id, Time>) returns (novel: seq<Receipt>)
    ensures novel == Unseen(receipts, seen)
  {
    novel := [];
    var i := 0;
    assert receipts[0..] == receipts;
    assert Unseen([], seen) == [];
    hide Unseen;
    while i < |receipts|
      invariant 0 <= i <= |receipts|
      invariant Unseen(receipts, seen) == novel + Unseen(receipts[i..], seen)
    {
      UnseenStep(novel, receipts, i, seen);
      if receipts[i].attemptID !in seen {
        novel := novel + [receipts[i]];
      }
      i := i + 1;
    }
  }

  method RememberAll(known: map<Id, Time>, receipts: seq<Receipt>, now: Time) returns (seen: map<Id, Time>)
    ensures seen == Remember(known, receipts, now)
  {
    seen := known;
    var i := 0;
    assert receipts[0..] == receipts;
    while i < |receipts|
      invariant 0 <= i <= |receipts|
      invariant Remember(known, receipts, now) == Remember(seen, receipts[i..], now)
    {
      assert receipts[i..][1..] == receipts[i + 1..];
      seen := seen[receipts[i].attemptID := now];
      i := i + 1;
    }
  }

  // The M1 policy on a structurally valid set: one attempt, never seen before.
  method CheckPolicy(config: Config, set_: ReceiptSet, permit: Lane.Permit, now: Time, replayed: bool)
    returns (error: Option<PermitError>)
    ensures error == PolicyError(config, set_, permit, now, replayed)
  {
    hide Rejection;
    error := None;
    if |set_.receipts| > 1 {
      var rejection := Validate(set_, Expected(config, permit, now).(singleAttempt := true));
      if rejection.Some? {
        error := Some(ReceiptsInvalid);
      }
    }
    if error.None? && replayed {
      error := Some(ReceiptReplayed);
    }
  }

  method Reclaim(reported: Outcome) returns (outcome: Outcome)
    ensures outcome == CallOutcome(reported)
  {
    outcome := reported;
    if outcome.class_.CancelledBeforeUpstream? && Effective(outcome.delivery) != NotSent {
      outcome := outcome.(class_ := UncertainReached);
    }
  }

  // The outcome a receipt is recorded with: the last one carries the call's
  // own guidance when both say the same.
  method PlanReceipt(novel: seq<Receipt>, index: nat, call: Outcome) returns (outcome: Outcome)
    requires index < |novel|
    ensures index < |OutcomesToRecord(novel, call)| && outcome == OutcomesToRecord(novel, call)[index]
  {
    outcome := Outcome(ReceiptClassOf(novel[index].outcome), 0, ZERO, Unobserved);
    if index == |novel| - 1 && call.class_ !in {Unclassified, Success} && call.class_ == outcome.class_ {
      outcome := outcome.(retryAfter := call.retryAfter, resetAt := call.resetAt);
    }
  }

  lemma PlanEnds(novel: seq<Receipt>, call: Outcome)
    requires novel != []
    ensures var plan := OutcomesToRecord(novel, call);
            && |plan| >= |novel|
            && plan == (if call.class_ !in {Unclassified, Success} && call.class_ != ReceiptClassOf(novel[|novel| - 1].outcome)
                        then plan[..|novel|] + [call] else plan[..|novel|])
  {
  }

  // The circuit as it was saved; a window that has already passed comes back
  // closed.
  method ReviveCircuit(known: Circuit, saved: Persisted, now: Time) returns (data: Circuit)
    ensures data == RestoreCircuit(known, saved, now)
  {
    data := known;
    if saved.circuit.Some? {
      var snapshot := saved.circuit.value;
      data := data.(state := snapshot.state, reason := snapshot.reason, openUntil := snapshot.openUntil, refreshRequired := snapshot.refreshRequired);
    }
    data := data.(rateEvents := saved.rateEvents, lastRateReset := saved.lastRateReset);
    if data.state.OpenUntil? && data.openUntil != ZERO && !(now < data.openUntil) {
      data := data.(state := Closed, reason := Unclassified, openUntil := ZERO);
    }
  }

  // Adds the dated identities of a saved projection.
  method AddSeen(known: map<Id, Time>, saved: map<Id, Time>) returns (seen: map<Id, Time>)
    ensures seen == MergeSeen(known, saved)
  {
    var dated: map<Id, Time> := map[];
    var rest := saved.Keys;
    while rest != {}
      invariant rest <= saved.Keys
      invariant dated == map id | id in saved && id !in rest && saved[id] != ZERO :: saved[id]
      decreases rest
    {
      var id :| id in rest;
      if saved[id] != ZERO {
        dated := dated[id := saved[id]];
      }
      rest := rest - {id};
    }
    seen := known + dated;
  }

  class Governor {
    const config: Config
    // Whether anybody wants to hear of events.
    const events: bool
    const ledger: RollingLedger
    var closed: bool
    var inFlight: bool
    var activeTaskID: Id
    var queue: seq<Waiter>
    var tickets: nat
    var currentTask: Id
    var consecutiveTurns: nat
    var lastStart: Time
    var nextAttempt: int
    var tasks: map<Id, Task>
    var requestIDs: map<Id, Record>
    var attemptIDs: map<Id, Time>
    var completedRequestIDs: seq<Completion>
    var circuit: Circuit
    var cooldownUntil: Time
    var telemetry: Telemetry

    ghost predicate Valid()
      reads this, ledger
    {
      ledger.Valid()
    }

    ghost function View(): State
      requires Valid()
      reads this, ledger
    {
      State(closed, inFlight, activeTaskID, queue, tickets, currentTask, consecutiveTurns, lastStart, nextAttempt, ledger.Live(),
            tasks, requestIDs, attemptIDs, completedRequestIDs, circuit, cooldownUntil, telemetry)
    }

    constructor (config: Config, events: bool)
      ensures Valid() && fresh(ledger) && this.config == config && this.events == events
      ensures View() == FRESH
    {
      this.config, this.events := config, events;
      ledger := new RollingLedger();
      closed, inFlight, activeTaskID, queue, tickets := false, false, "", [], 0;
      currentTask, consecutiveTurns, lastStart, nextAttempt := "", 0, ZERO, 1;
      tasks, requestIDs, attemptIDs, completedRequestIDs := map[], map[], map[], [];
      circuit, cooldownUntil, telemetry := FRESH_CIRCUIT, ZERO, FRESH_TELEMETRY;
    }

    // ----- Retention -----

    method PruneRetention(now: Time) returns (ghost choice: Choice)
      requires Valid()
      modifies this, ledger
      ensures Valid() && Fits(old(View()), now, choice) && View() == Prune(old(View()), now, choice)
    {
      hide PruneRequests, YoungTasks, YoungAttempts, Keepers, ChoiceFits;
      tasks, attemptIDs, completedRequestIDs, requestIDs, choice :=
        Retain(tasks, inFlight, activeTaskID, queue, attemptIDs, completedRequestIDs, requestIDs, now);
    }

    method Expire(now: Time) returns (ghost choice: Choice)
      requires Valid()
      modifies this, ledger
      ensures Valid() && Fits(old(View()), now, choice) && View() == Lane.Expire(config, old(View()), now, choice)
    {
      hide PruneRequests, YoungTasks, YoungAttempts, Keepers, ChoiceFits, RecentRates, ExpireTelemetry, FirstAfter, DropExpired;
      choice := PruneRetention(now);
      ledger.Expire(now, THREE_HOURS);
      var recent := DropOldRates(config, circuit.rateEvents, now);
      circuit := circuit.(rateEvents := recent);
      telemetry := DropPassedReset(telemetry, now);
    }

    method TouchTask(task: Id, at: Time)
      requires Valid()
      modifies this, ledger
      ensures Valid() && View() == Touch(old(View()), task, at)
    {
      var count := Task(0, 0, ZERO);
      if task in tasks {
        count := tasks[task];
      }
      tasks := tasks[task := count.(lastTouched := at)];
    }

    method BudgetSnapshot(now: Time, task: Id) returns (ghost choice: Choice)
      requires Valid()
      modifies this, ledger
      ensures Valid() && Fits(old(View()), now, choice) && View() == Survey(config, old(View()), task, now, choice)
    {
      hide PruneRequests, YoungTasks, YoungAttempts, Keepers, ChoiceFits, Bisect, FirstAfter;
      choice := Expire(now);
      TouchTask(task, now);
    }

    method SpendRemaining()
      requires Valid()
      modifies this, ledger
      ensures Valid() && View() == old(View()).(telemetry := Spend(config, old(telemetry)))
    {
      if telemetry.available.Some? && config.Numeric() {
        var value := telemetry.available.value;
        if value > 0 {
          value := value - 1;
        }
        telemetry := telemetry.(available := Some(value));
      }
    }

    method DebitTask(task: Id, retried: bool, at: Time, now: Time)
      requires Valid()
      modifies this, ledger
      ensures Valid() && View() == Debit(config, old(View()), task, retried, at, now)
    {
      hide Spend, FirstAfter, CountAfter;
      var count := Task(0, 0, ZERO);
      if task in tasks {
        count := tasks[task];
      }
      tasks := tasks[task := Task(count.attempts + 1, count.retries + (if retried then 1 else 0), now)];
      ledger.Add(at, task);
      SpendRemaining();
    }

    // ----- Circuit -----

    method RecordOutcome(now: Time, task: Id, reported: Outcome, jitter: Duration) returns (result: FinishResult, ghost draw: Draw)
      requires Valid()
      modifies this, ledger
      ensures Valid() && draw.jitter == jitter
      ensures AsRecorded(reported).class_.RateCapacity? ==> Fits(old(View()), now, draw.choice)
      ensures (View(), result) == Lane.RecordOutcome(config, old(View()), task, now, reported, draw)
    {
      hide Lane.Expire, ChoiceFits, SelectedBackoff, RateResponse, RaisedCooldown, OtherResponse, AsRecorded, Recoverable;
      var outcome := Reclassify(reported);
      draw := Draw(jitter, Choice({}, {}));
      var selected := 0;
      if outcome.class_.RateCapacity? {
        ghost var choice := Expire(now);
        draw := Draw(jitter, choice);
        selected := RecordRate(now, outcome, jitter);
      } else {
        circuit := CountOtherResponse(circuit, outcome.class_);
      }
      TouchTask(task, now);
      var eligible := Recoverable(outcome.class_) && tasks[task].retries < config.retryBudget && circuit.state.Closed?;
      result := FinishResult(outcome.class_, eligible, selected, 1, Snapshot(circuit), outcome.delivery, None);
    }

    method RecordRate(now: Time, outcome: Outcome, jitter: Duration) returns (selected: Duration)
      requires Valid()
      modifies this, ledger
      ensures Valid() && selected == SelectedBackoff(|old(circuit).rateEvents| + 1, outcome, now, jitter)
      ensures View() == old(View()).(circuit := RateResponse(config, old(circuit), outcome, now),
                                     cooldownUntil := RaisedCooldown(old(cooldownUntil), selected, now))
    {
      hide SelectedBackoff, RateResponse;
      selected := ChooseBackoff(|circuit.rateEvents| + 1, outcome, now, jitter);
      circuit := CountRateResponse(config, circuit, outcome, now);
      if selected > 0 && now + selected > cooldownUntil {
        cooldownUntil := now + selected;
      }
    }

    method AcknowledgeHuman() returns (acknowledged: bool)
      requires Valid()
      modifies this`circuit
      ensures Valid() && (View(), acknowledged) == Acknowledge(old(View()))
    {
      if !circuit.state.HumanReviewRequired? {
        return false;
      }
      circuit := circuit.(rateEvents := [], lastRateReset := ZERO);
      circuit := circuit.(refreshRequired := false);
      circuit := Transition(circuit, Closed, Unclassified, ZERO);
      return true;
    }

    // ----- Telemetry -----

    method ApplyTelemetry(snapshot: TelemetrySnapshot, now: Time)
      requires Valid()
      modifies this, ledger
      ensures Valid() && View() == Lane.ApplyTelemetry(config, old(View()), snapshot, now)
    {
      hide TelemetryAfter, CircuitAfter, CooldownAfter;
      circuit := ObserveCircuit(config, circuit, telemetry.resetAt, snapshot, now);
      telemetry := ObserveTelemetry(telemetry, snapshot, now);
      cooldownUntil := ObserveCooldown(cooldownUntil, snapshot, now);
    }

    // ----- Admission -----

    method CheckCircuit(now: Time) returns (verdict: Verdict)
      requires Valid()
      ensures verdict == CircuitVerdict(View(), now)
    {
      if inFlight {
        return Wait(Delayed, ZERO);
      }
      if telemetry.unsafe {
        return Refuse(UnsafeProviderAmplification);
      }
      if circuit.refreshRequired {
        return Refuse(AuthenticationRefreshRequired);
      }
      if circuit.state.HumanReviewRequired? {
        return Refuse(HumanAcknowledgementRequired);
      }
      if circuit.state.OpenUntil? {
        if circuit.openUntil == ZERO {
          return Refuse(CircuitIsOpen);
        }
        if now < circuit.openUntil {
          return Wait(CircuitIsOpen, circuit.openUntil);
        }
      }
      return Pass;
    }

    method CheckUpstream(now: Time) returns (verdict: Verdict)
      requires Valid()
      ensures verdict == UpstreamVerdict(config, telemetry, cooldownUntil, now)
    {
      if telemetry.upstream.UpstreamOpen? {
        if telemetry.cooldownUntil > now {
          return Wait(CircuitIsOpen, telemetry.cooldownUntil);
        }
        return Refuse(CircuitIsOpen);
      }
      if now < cooldownUntil {
        return Wait(CooldownActive, cooldownUntil);
      }
      if telemetry.rateLimited || telemetry.capacityExhausted {
        if telemetry.resetAt > now {
          return Wait(UpstreamAllowanceExhausted, telemetry.resetAt);
        }
        return Refuse(UpstreamAllowanceExhausted);
      }
      if telemetry.available.Some? && config.Numeric() {
        var available := telemetry.available.value - config.manualReserve;
        if available <= 0 {
          if telemetry.resetAt > now {
            return Wait(UpstreamAllowanceExhausted, telemetry.resetAt);
          }
          return Refuse(UpstreamAllowanceExhausted);
        }
      }
      return Pass;
    }

    method CheckBudgets(now: Time, request: Request) returns (verdict: Verdict)
      requires Valid() && request.task in tasks
      ensures verdict == BudgetVerdict(config, View(), request, now)
    {
      var count := tasks[request.task];
      if count.attempts >= config.taskBudget {
        return Refuse(TaskBudgetExhausted);
      }
      if request.retry && count.retries >= config.retryBudget {
        return Refuse(RetryBudgetExhausted);
      }
      if config.Numeric() {
        var next := ledger.Next(now, THREE_HOURS, config.rolling3h);
        if next != ZERO {
          return Wait(RollingBudgetExhausted, next);
        }
        next := ledger.Next(now, HOUR, config.rolling1h);
        if next != ZERO {
          return Wait(RollingBudgetExhausted, next);
        }
        next := ledger.Next(now, TEN_MINUTES, config.rolling10m);
        if next != ZERO {
          return Wait(RollingBudgetExhausted, next);
        }
      }
      if lastStart != ZERO {
        var next := lastStart + config.minimumStartInterval;
        if now < next {
          return Wait(Delayed, next);
        }
      }
      return Pass;
    }

    // The circuit's own verdict; a window that has passed closes.
    method PassCircuit(now: Time) returns (verdict: Verdict)
      requires Valid()
      modifies this, ledger
      ensures Valid() && verdict == CircuitVerdict(old(View()), now)
      ensures View() == old(View()).(circuit := CircuitChecked(old(View()), now))
    {
      hide CircuitVerdict;
      verdict := CheckCircuit(now);
      if verdict.Pass? && circuit.state.OpenUntil? {
        circuit := Transition(circuit, Closed, Unclassified, ZERO);
      }
    }

    // Checks one request against every protection, expiring what `now` allows.
    method CheckAdmission(now: Time, at: Time, request: Request) returns (verdict: Verdict, ghost choice: Choice)
      requires Valid()
      modifies this, ledger
      ensures Valid() && Fits(old(View()), now, choice)
      ensures (View(), verdict) == Check(config, old(View()), request, now, at, choice)
    {
      hide Lane.Expire, ChoiceFits, Keepers, CircuitVerdict, CircuitChecked, UpstreamVerdict, BudgetVerdict;
      choice := Expire(now);
      verdict := PassCircuit(now);
      if !verdict.Pass? {
        return;
      }
      verdict := CheckUpstream(now);
      if !verdict.Pass? {
        return;
      }
      TouchTask(request.task, at);
      verdict := CheckBudgets(now, request);
    }

    method ReserveRequest(id: Id)
      requires Valid()
      modifies this, ledger
      ensures Valid() && View() == Reserve(old(View()), id)
    {
      requestIDs := requestIDs[id := Pending];
    }

    method RemoveWaiter(index: nat)
      requires Valid() && index < |queue|
      modifies this, ledger
      ensures Valid() && View() == WithoutWaiter(old(View()), index)
    {
      requestIDs := requestIDs - {queue[index].request.id};
      queue := queue[..index] + queue[index + 1..];
    }

    method GrantPermit(request: Request) returns (permit: Permit)
      requires Valid()
      modifies this, ledger
      ensures Valid() && View() == Grant(old(View()), request)
      ensures fresh(permit) && permit.governor == this && permit.View() == Fresh(request)
    {
      inFlight := true;
      activeTaskID := request.task;
      permit := new Permit(this, request);
    }

    // The index of the waiter to serve next, or -1.
    method EligibleIndex() returns (index: int)
      requires Valid()
      ensures index == Eligible(config, View())
    {
      if |queue| == 0 {
        return -1;
      }
      if currentTask != "" && consecutiveTurns >= config.fairnessQuantum {
        var i := 0;
        assert queue[0..] == queue;
        while i < |queue|
          invariant 0 <= i <= |queue|
          invariant FirstOther(queue, currentTask) == i + FirstOther(queue[i..], currentTask)
        {
          if queue[i].request.task != currentTask {
            return i;
          }
          assert queue[i..][1..] == queue[i + 1..];
          i := i + 1;
        }
      }
      return 0;
    }

    method ObserveSource(observed: Option<TelemetrySnapshot>, now: Time)
      requires Valid()
      modifies this, ledger
      ensures Valid() && View() == Observe(config, old(View()), observed, now)
    {
      if observed.Some? {
        ApplyTelemetry(observed.value, now);
      }
    }

    method Emit(task: Id, at: Time) returns (ghost emitted: Choice)
      requires Valid()
      modifies this, ledger
      ensures Valid() && (events ==> Fits(old(View()), at, emitted))
      ensures View() == Emitted(config, events, old(View()), task, at, emitted)
    {
      hide Survey, ChoiceFits;
      emitted := Choice({}, {});
      if events {
        emitted := BudgetSnapshot(at, task);
      }
    }

    // Admission without waiting: the section entered once telemetry was read,
    // and the event about its outcome, which an open governor always emits.
    method TryAdmit(request: Request, at: Time, observed: Option<TelemetrySnapshot>, cancelled: bool, emitAt: Time)
      returns (admission: Admission, permit: Permit?, ghost pruned: Choice, ghost checked: Choice, ghost emitted: Choice)
      requires Valid()
      modifies this, ledger
      ensures Valid()
      ensures var decided := Lane.TryAdmit(config, old(View()), request, at, observed, cancelled, pruned, checked);
              && AdmitFits(config, old(View()), request, at, observed, cancelled, pruned, checked)
              && (events && !old(closed) ==> Fits(decided.0, emitAt, emitted))
              && View() == (if old(closed) then decided.0 else Emitted(config, events, decided.0, request.task, emitAt, emitted))
              && admission == decided.1
      ensures admission.Granted? <==> permit != null
      ensures permit != null ==> fresh(permit) && permit.governor == this && permit.View() == Fresh(request)
    {
      hide Lane.TryAdmit, AdmitFits, ChoiceFits, Emitted, Lane.Fresh;
      emitted := Choice({}, {});
      var open := !closed;
      admission, permit, pruned, checked := DecideAdmission(request, at, observed, cancelled);
      if open {
        emitted := Emit(request.task, emitAt);
      }
    }

    method DecideAdmission(request: Request, at: Time, observed: Option<TelemetrySnapshot>, cancelled: bool)
      returns (admission: Admission, permit: Permit?, ghost pruned: Choice, ghost checked: Choice)
      requires Valid()
      modifies this, ledger
      ensures Valid()
      ensures AdmitFits(config, old(View()), request, at, observed, cancelled, pruned, checked)
      ensures (View(), admission) == Lane.TryAdmit(config, old(View()), request, at, observed, cancelled, pruned, checked)
      ensures admission.Granted? <==> permit != null
      ensures permit != null ==> fresh(permit) && permit.governor == this && permit.View() == Fresh(request)
    {
      hide Prune, Check, Observe, ChoiceFits, Keepers;
      permit, pruned, checked := null, Choice({}, {}), Choice({}, {});
      if closed {
        admission := Turn(GovernorClosed);
        return;
      }
      pruned := PruneRetention(at);
      if request.id in requestIDs {
        admission := Turn(DuplicateClientRequest);
        return;
      }
      if |queue| >= config.queueCapacity {
        admission := Turn(QueueFull);
        return;
      }
      if |queue| != 0 || inFlight {
        var next := at;
        if lastStart != ZERO {
          next := lastStart + config.minimumStartInterval;
        }
        admission := Turned(Delayed, Delayed, next);
        return;
      }
      if cancelled {
        admission := Turn(ContextCancelled);
        return;
      }
      var verdict;
      verdict, checked := ObserveAndCheck(request, at, at, observed);
      match verdict {
        case Wait(_, _) => admission := Postponed(verdict);
        case Refuse(code) => admission := Turn(code);
        case Pass =>
          ReserveRequest(request.id);
          var granted := GrantPermit(request);
          permit := granted;
          admission := Granted(Fresh(request));
      }
    }

    method ObserveAndCheck(request: Request, now: Time, at: Time, observed: Option<TelemetrySnapshot>)
      returns (verdict: Verdict, ghost checked: Choice)
      requires Valid()
      modifies this, ledger
      ensures Valid() && Fits(Observe(config, old(View()), observed, now), now, checked)
      ensures (View(), verdict) == Check(config, Observe(config, old(View()), observed, now), request, now, at, checked)
    {
      hide Check, Observe, ChoiceFits, Keepers;
      ObserveSource(observed, now);
      verdict, checked := CheckAdmission(now, at, request);
    }

    // Joining the queue; only a refusal by an open governor is an event.
    method Enqueue(request: Request, at: Time, emitAt: Time)
      returns (refusal: Option<AdmissionCode>, ghost pruned: Choice, ghost emitted: Choice)
      requires Valid()
      modifies this, ledger
      ensures Valid()
      ensures !old(closed) ==> Fits(old(View()), at, pruned)
      ensures var decided := Lane.Enqueue(config, old(View()), request, at, pruned);
              var silent := old(closed) || refusal.None?;
              && (events && !silent ==> Fits(decided.0, emitAt, emitted))
              && View() == (if silent then decided.0 else Emitted(config, events, decided.0, request.task, emitAt, emitted))
              && refusal == decided.1
    {
      hide Lane.Enqueue, ChoiceFits, Emitted;
      emitted := Choice({}, {});
      var open := !closed;
      refusal, pruned := DecideJoin(request, at);
      if open && refusal.Some? {
        emitted := Emit(request.task, emitAt);
      }
    }

    method DecideJoin(request: Request, at: Time) returns (refusal: Option<AdmissionCode>, ghost pruned: Choice)
      requires Valid()
      modifies this, ledger
      ensures Valid()
      ensures !old(closed) ==> Fits(old(View()), at, pruned)
      ensures (View(), refusal) == Lane.Enqueue(config, old(View()), request, at, pruned)
    {
      hide Prune, ChoiceFits, Keepers;
      pruned := Choice({}, {});
      if closed {
        return Some(GovernorClosed), pruned;
      }
      pruned := PruneRetention(at);
      if request.id in requestIDs {
        return Some(DuplicateClientRequest), pruned;
      }
      if |queue| >= config.queueCapacity {
        return Some(QueueFull), pruned;
      }
      ReserveRequest(request.id);
      queue := queue + [Waiter(tickets, request)];
      tickets := tickets + 1;
      refusal := None;
    }

    // One look by the waiter at `index`: it leaves with a permit or a refusal,
    // or stays queued, and its outcome is an event. `now` was read before the
    // section, `at` inside it.
    method QueueCheck(index: nat, now: Time, at: Time, observed: Option<TelemetrySnapshot>, cancelled: bool, emitAt: Time)
      returns (admission: Admission, permit: Permit?, ghost checked: Choice, ghost emitted: Choice)
      requires Valid() && index < |queue|
      modifies this, ledger
      ensures Valid()
      ensures !cancelled ==> Fits(Observe(config, old(View()), observed, now), now, checked)
      ensures var decided := Lane.QueueCheck(config, old(View()), index, now, at, observed, cancelled, checked);
              && (events ==> Fits(decided.0, emitAt, emitted))
              && View() == Emitted(config, events, decided.0, old(queue)[index].request.task, emitAt, emitted)
              && admission == decided.1
      ensures admission.Granted? <==> permit != null
      ensures permit != null ==> fresh(permit) && permit.governor == this && permit.View() == Fresh(old(queue)[index].request)
    {
      hide Lane.QueueCheck, Observe, ChoiceFits, Emitted, Lane.Fresh;
      var task := queue[index].request.task;
      admission, permit, checked := DecideLook(index, now, at, observed, cancelled);
      emitted := Emit(task, emitAt);
    }

    method DecideLook(index: nat, now: Time, at: Time, observed: Option<TelemetrySnapshot>, cancelled: bool)
      returns (admission: Admission, permit: Permit?, ghost checked: Choice)
      requires Valid() && index < |queue|
      modifies this, ledger
      ensures Valid()
      ensures !cancelled ==> Fits(Observe(config, old(View()), observed, now), now, checked)
      ensures (View(), admission) == Lane.QueueCheck(config, old(View()), index, now, at, observed, cancelled, checked)
      ensures admission.Granted? <==> permit != null
      ensures permit != null ==> fresh(permit) && permit.governor == this && permit.View() == Fresh(old(queue)[index].request)
    {
      hide Check, Observe, ChoiceFits, Keepers;
      permit, checked := null, Choice({}, {});
      var request := queue[index].request;
      ObserveSource(observed, now);
      QueueSurvives(config, old(View()), observed, request, now, at);
      if cancelled {
        RemoveWaiter(index);
        admission := Turn(ContextCancelled);
        return;
      }
      var verdict;
      verdict, checked := CheckAdmission(now, at, request);
      match verdict {
        case Wait(_, _) => admission := Postponed(verdict);
        case Refuse(code) =>
          RemoveWaiter(index);
          admission := Turn(code);
        case Pass =>
          RemoveWaiter(index);
          ReserveRequest(request.id);
          var granted := GrantPermit(request);
          permit := granted;
          admission := Granted(Fresh(request));
      }
    }

    // A waiter whose context ended while it slept.
    method Leave(index: nat, emitAt: Time) returns (ghost emitted: Choice)
      requires Valid() && index < |queue|
      modifies this, ledger
      ensures Valid() && (events ==> Fits(WithoutWaiter(old(View()), index), emitAt, emitted))
      ensures View() == Emitted(config, events, WithoutWaiter(old(View()), index), old(queue)[index].request.task, emitAt, emitted)
    {
      hide ChoiceFits, Emitted;
      var task := queue[index].request.task;
      RemoveWaiter(index);
      emitted := Emit(task, emitAt);
    }

    method Close()
      requires Valid()
      modifies this, ledger
      ensures Valid() && View() == Lane.Close(old(View()))
    {
      if closed {
        return;
      }
      closed := true;
      queue := [];
    }

    method BeginCredentialRefresh() returns (code: AdmissionCode, permit: RefreshPermit?)
      requires Valid()
      modifies this, ledger
      ensures Valid() && (View(), code) == BeginRefresh(old(View()))
      ensures code.Admitted? <==> permit != null
      ensures permit != null ==> fresh(permit) && permit.governor == this && !permit.finished
    {
      permit := null;
      if !circuit.refreshRequired {
        code := CircuitIsOpen;
        return;
      }
      if circuit.refreshInFlight || inFlight || |queue| != 0 {
        code := Delayed;
        return;
      }
      circuit := circuit.(refreshInFlight := true);
      code := Admitted;
      permit := new RefreshPermit(this);
    }

    method FinishCredentialRefresh(success: bool)
      requires Valid()
      modifies this, ledger
      ensures Valid() && View() == FinishRefresh(old(View()), success)
    {
      circuit := circuit.(refreshInFlight := false);
      if success {
        circuit := circuit.(refreshRequired := false);
        circuit := Transition(circuit, Closed, Unclassified, ZERO);
      } else {
        circuit := Transition(circuit, HumanReviewRequired, AuthenticationExpired, ZERO);
      }
    }

    // ----- Durable projection -----

    method PersistedState(now: Time) returns (saved: Persisted, ghost choice: Choice)
      requires Valid()
      modifies this, ledger
      ensures Valid() && Fits(old(View()), now, choice)
      ensures View() == Lane.Expire(config, old(View()), now, choice) && saved == Project(View())
    {
      hide Lane.Expire, ChoiceFits, Keepers;
      choice := Expire(now);
      var rolling := ledger.CopyEvents();
      saved := Persisted(nextAttempt, lastStart, cooldownUntil, Some(Snapshot(circuit)), circuit.rateEvents, circuit.lastRateReset,
                         telemetry, rolling, tasks, requestIDs, attemptIDs);
    }

    static lemma DatedStep(kept: seq<Event>, rolling: seq<Event>, i: nat)
      requires i < |rolling|
      ensures kept + Dated(rolling[i..]) == (if rolling[i].at == ZERO then kept else kept + [rolling[i]]) + Dated(rolling[i + 1..])
    {
      assert rolling[i..][1..] == rolling[i + 1..];
    }

    method RestoreLedger(rolling: seq<Event>)
      requires Valid()
      modifies this, ledger
      ensures Valid() && View() == old(View()).(ledger := old(View()).ledger + Dated(rolling))
    {
      var i := 0;
      assert rolling[0..] == rolling;
      ghost var before := ledger.Live();
      assert Dated([]) == [];
      hide Dated;
      while i < |rolling|
        invariant 0 <= i <= |rolling| && ledger.Valid()
        invariant View() == old(View()).(ledger := ledger.Live())
        invariant ledger.Live() + Dated(rolling[i..]) == before + Dated(rolling)
      {
        DatedStep(ledger.Live(), rolling, i);
        assert Event(rolling[i].at, rolling[i].task) == rolling[i];
        if rolling[i].at != ZERO {
          ledger.Add(rolling[i].at, rolling[i].task);
        }
        i := i + 1;
      }
    }

    method MergeProtections(saved: Persisted, now: Time)
      requires Valid()
      modifies this
      ensures Valid() && View() == Lane.MergeProtections(old(View()), saved, now)
    {
      hide RestoreCircuit, Revived;
      var revived := ReviveCircuit(circuit, saved, now);
      var sequence := if saved.nextAttempt > nextAttempt then saved.nextAttempt else nextAttempt;
      nextAttempt, lastStart, cooldownUntil := sequence, saved.lastStart, saved.cooldownUntil;
      circuit, telemetry := revived, Revived(telemetry, saved.telemetry);
    }

    method MergeRecords(saved: Persisted)
      requires Valid()
      modifies this
      ensures Valid() && View() == Lane.MergeRecords(old(View()), saved)
    {
      hide MergeSeen;
      var seen := AddSeen(attemptIDs, saved.attemptIDs);
      tasks, requestIDs, attemptIDs := tasks + saved.tasks, requestIDs + saved.requestIDs, seen;
    }

    method MergeSaved(saved: Persisted, now: Time)
      requires Valid()
      modifies this, ledger
      ensures Valid() && View() == Merge(old(View()), saved, now)
    {
      hide Lane.MergeProtections, Dated, Lane.MergeRecords;
      MergeProtections(saved, now);
      RestoreLedger(saved.rolling);
      MergeRecords(saved);
    }

    method RestorePersistedState(saved: Persisted, now: Time) returns (ghost choice: Choice)
      requires Valid()
      modifies this, ledger
      ensures Valid() && Fits(Merge(old(View()), saved, now), now, choice)
      ensures View() == Restore(old(View()), saved, now, choice)
    {
      hide Prune, Merge, ChoiceFits;
      MergeSaved(saved, now);
      choice := PruneRetention(now);
    }

    method MarkRequestActive(id: Id)
      requires Valid()
      modifies this, ledger
      ensures Valid() && View() == MarkActive(old(View()), id)
    {
      if id in requestIDs {
        requestIDs := requestIDs[id := Active];
      }
    }

    method TakeTurn(task: Id)
      requires Valid()
      modifies this, ledger
      ensures Valid() && View() == Lane.TakeTurn(old(View()), task)
    {
      if currentTask == task {
        consecutiveTurns := consecutiveTurns + 1;
      } else {
        currentTask := task;
        consecutiveTurns := 1;
      }
    }

    method BeginAttempt(request: Request, receiptAware: bool, now: Time) returns (sequence: int, ghost choice: Choice)
      requires Valid()
      modifies this, ledger
      ensures Valid() && Fits(old(View()), now, choice)
      ensures (View(), sequence) == Lane.BeginAttempt(config, old(View()), request, receiptAware, now, choice)
    {
      hide Survey, ChoiceFits, Keepers, MarkActive, Lane.TakeTurn, Debit;
      choice := BudgetSnapshot(now, request.task);
      sequence := nextAttempt;
      nextAttempt := nextAttempt + 1;
      MarkRequestActive(request.id);
      if !receiptAware {
        lastStart := now;
      }
      TakeTurn(request.task);
      if !receiptAware {
        DebitTask(request.task, request.retry, now, now);
      }
    }

    method DebitUncertain(request: Request, startedAt: Time, now: Time)
      requires Valid()
      modifies this, ledger
      ensures Valid() && View() == Lane.DebitUncertain(config, old(View()), request, startedAt, now)
    {
      hide Debit;
      var debitAt := startedAt;
      if debitAt == ZERO {
        debitAt := now;
      }
      lastStart := debitAt;
      DebitTask(request.task, request.retry, debitAt, now);
    }

    method Distrust()
      requires Valid()
      modifies this, ledger
      ensures Valid() && View() == Distrusted(old(View()))
    {
      telemetry := telemetry.(unsafe := true);
    }

    method DebitReceipt(permit: Lane.Permit, receipt: Receipt, now: Time)
      requires Valid()
      modifies this, ledger
      ensures Valid() && View() == Lane.DebitReceipt(config, old(View()), permit, receipt, now)
    {
      hide Spend, Normalized;
      var task := permit.request.task;
      var count := Task(0, 0, ZERO);
      if task in tasks {
        count := tasks[task];
      }
      ledger.Add(Normalized(receipt.startedAt, permit.startedAt, now), task);
      count := count.(attempts := count.attempts + 1);
      if receipt.sequence > 1 || permit.request.retry {
        count := count.(retries := count.retries + 1);
      }
      tasks := tasks[task := count];
      if receipt.sequence > 1 {
        nextAttempt := nextAttempt + 1;
      }
      SpendRemaining();
    }

    method Conclude(id: Id, unsafe: bool, latestStart: Time, now: Time)
      requires Valid()
      modifies this, ledger
      ensures Valid() && View() == Lane.Conclude(old(View()), id, unsafe, latestStart, now)
    {
      if unsafe {
        Distrust();
      }
      if latestStart > lastStart {
        lastStart := latestStart;
      }
      CompleteRequest(id, now);
      ReleaseLane();
    }

    method PruneAttemptIDs(now: Time) returns (ghost evicted: set<Id>)
      requires Valid()
      modifies this, ledger
      ensures Valid() && AttemptsFit(old(attemptIDs), now, evicted)
      ensures View() == old(View()).(attemptIDs := YoungAttempts(old(attemptIDs), now) - evicted)
    {
      hide YoungAttempts, AttemptsFit;
      attemptIDs, evicted := PruneAttempts(attemptIDs, now);
    }

    method ResultOf(outcome: OutcomeClass, task: Id, backoff: Duration, debited: nat, delivery: Delivery) returns (result: FinishResult)
      requires Valid()
      ensures result == FinishResult(outcome,
                                     Recoverable(outcome) && TaskOf(View(), task).retries < config.retryBudget && circuit.state.Closed?,
                                     backoff, debited, Snapshot(circuit), delivery, None)
    {
      hide Recoverable;
      var count := Task(0, 0, ZERO);
      if task in tasks {
        count := tasks[task];
      }
      var eligible := Recoverable(outcome) && count.retries < config.retryBudget && circuit.state.Closed?;
      result := FinishResult(outcome, eligible, backoff, debited, Snapshot(circuit), delivery, None);
    }

    method CompleteRequest(id: Id, at: Time)
      requires Valid()
      modifies this, ledger
      ensures Valid() && View() == Complete(old(View()), id, at)
    {
      if id in requestIDs {
        requestIDs := requestIDs[id := Completed(at)];
        completedRequestIDs := completedRequestIDs + [Completion(id, at)];
      }
    }

    method ReleaseLane()
      requires Valid()
      modifies this, ledger
      ensures Valid() && View() == Vacate(old(View()))
    {
      inFlight := false;
      activeTaskID := "";
    }
  }

  // Neither telemetry nor a check moves anyone in the queue.
  lemma QueueSurvives(c: Config, s: State, observed: Option<TelemetrySnapshot>, request: Request, now: Time, at: Time)
    ensures Observe(c, s, observed, now).queue == s.queue
    ensures forall checked :: Check(c, Observe(c, s, observed, now), request, now, at, checked).0.queue == s.queue
  {
  }

  class RefreshPermit {
    const governor: Governor
    var finished: bool

    constructor (governor: Governor)
      ensures this.governor == governor && !finished
    {
      this.governor := governor;
      finished := false;
    }

    method Finish(success: bool) returns (error: Option<PermitError>)
      requires governor.Valid()
      modifies this, governor, governor.ledger
      ensures governor.Valid() && finished
      ensures old(finished) ==> error == Some(PermitCompleted) && governor.View() == old(governor.View())
      ensures !old(finished) ==> error == None && governor.View() == FinishRefresh(old(governor.View()), success)
    {
      if finished {
        return Some(PermitCompleted);
      }
      finished := true;
      governor.FinishCredentialRefresh(success);
      return None;
    }
  }

  class Permit {
    const governor: Governor
    const request: Request
    var started: bool
    var completed: bool
    var receiptAware: bool
    var startedAt: Time
    var attemptSequence: int

    constructor (governor: Governor, request: Request)
      ensures this.governor == governor && View() == Fresh(request)
    {
      this.governor, this.request := governor, request;
      started, completed, receiptAware, startedAt, attemptSequence := false, false, false, ZERO, 0;
    }

    function View(): Lane.Permit
      reads this
    {
      Lane.Permit(request, started, completed, receiptAware, startedAt, attemptSequence)
    }

    method Start(receiptAware: bool, now: Time) returns (error: Option<PermitError>, ghost choice: Choice)
      requires governor.Valid()
      modifies this, governor, governor.ledger
      ensures governor.Valid()
      ensures error.None? ==> Fits(old(governor.View()), now, choice)
      ensures (governor.View(), View(), error) == Lane.Start(governor.config, old(governor.View()), old(View()), receiptAware, now, choice)
    {
      hide BeginAttempt, ChoiceFits, Keepers;
      choice := Choice({}, {});
      if completed {
        return Some(PermitCompleted), choice;
      }
      if started {
        return Some(PermitStarted), choice;
      }
      if !governor.inFlight {
        return Some(PermitNotHeld), choice;
      }
      started, this.receiptAware, startedAt := true, receiptAware, now;
      attemptSequence, choice := governor.BeginAttempt(request, receiptAware, now);
      error := None;
    }

    // Gives an unstarted permit back, which is an event.
    method CancelBeforeStart(emitAt: Time) returns (error: Option<PermitError>, ghost emitted: Choice)
      requires governor.Valid()
      modifies this, governor, governor.ledger
      ensures governor.Valid()
      ensures var (released, p, refusal) := Lane.CancelBeforeStart(old(governor.View()), old(View()));
              && (governor.events && refusal.None? ==> Fits(released, emitAt, emitted))
              && governor.View() == (if refusal.None? then Emitted(governor.config, governor.events, released, request.task, emitAt, emitted) else released)
              && View() == p && error == refusal
    {
      hide ChoiceFits, Emitted;
      emitted := Choice({}, {});
      if completed {
        return Some(PermitCompleted), emitted;
      }
      if started {
        return Some(PermitStarted), emitted;
      }
      completed := true;
      governor.requestIDs := governor.requestIDs - {request.id};
      governor.ReleaseLane();
      emitted := governor.Emit(request.task, emitAt);
      error := None;
    }

    method CancelAfterStart(now: Time) returns (result: FinishResult)
      requires governor.Valid()
      modifies this, governor, governor.ledger
      ensures governor.Valid()
      ensures (governor.View(), View(), result) == Lane.CancelAfterStart(old(governor.View()), old(View()), now)
    {
      if completed {
        return Refused(PermitCompleted);
      }
      if !started {
        return Refused(PermitNotStarted);
      }
      completed := true;
      governor.CompleteRequest(request.id, now);
      governor.ReleaseLane();
      return FinishResult(CancelledBeforeUpstream, false, 0, 0, Snapshot(governor.circuit), Unobserved, None);
    }

    method Finish(outcome: Outcome, now: Time, jitter: Duration) returns (result: FinishResult, ghost surveyed: Choice, ghost draw: Draw)
      requires governor.Valid()
      modifies this, governor, governor.ledger
      ensures governor.Valid() && draw.jitter == jitter
      ensures FinishFits(governor.config, old(governor.View()), old(View()), outcome, now, surveyed, draw)
      ensures (governor.View(), View(), result)
           == Lane.Finish(governor.config, old(governor.View()), old(View()), outcome, now, surveyed, draw)
    {
      hide Survey, ChoiceFits, Keepers, RecordOutcome, Complete, AsRecorded;
      surveyed, draw := Choice({}, {}), Draw(jitter, Choice({}, {}));
      if completed {
        result := Refused(PermitCompleted);
        return;
      }
      if !started {
        result := Refused(PermitNotStarted);
        return;
      }
      if receiptAware {
        result := Refused(ReceiptsRequired);
        return;
      }
      completed := true;
      surveyed := governor.BudgetSnapshot(now, request.task);
      result, draw := governor.RecordOutcome(now, request.task, outcome, jitter);
      governor.CompleteRequest(request.id, now);
      governor.ReleaseLane();
    }

    // ----- Receipts -----

    method FinishReceiptFailure(error: PermitError, debit: bool, delivery: Delivery, now: Time)
      returns (result: FinishResult, ghost surveyed: Choice)
      requires governor.Valid()
      modifies this, governor, governor.ledger
      ensures governor.Valid() && Fits(Distrusted(old(governor.View())), now, surveyed)
      ensures (governor.View(), View(), result)
           == ReceiptFailure(governor.config, old(governor.View()), old(View()), error, debit, delivery, now, surveyed)
    {
      hide Survey, ChoiceFits, Keepers, Lane.DebitUncertain, Distrusted, Complete;
      completed := true;
      governor.Distrust();
      surveyed := governor.BudgetSnapshot(now, request.task);
      result := FinishResult(UncertainReached, false, 0, 0, Snapshot(governor.circuit), delivery, Some(error));
      if debit {
        governor.DebitUncertain(request, startedAt, now);
        result := result.(debited := 1);
      }
      governor.CompleteRequest(request.id, now);
      governor.ReleaseLane();
    }

    // One debit per receipt the governor has not seen, at a start time kept
    // inside the permit's own interval.
    method DebitNewReceipts(novel: seq<Receipt>, now: Time) returns (latestStart: Time)
      requires governor.Valid()
      modifies governor, governor.ledger
      ensures governor.Valid()
      ensures governor.View() == DebitReceipts(governor.config, old(governor.View()), View(), novel, now)
      ensures latestStart == LatestStart(novel, startedAt, now)
    {
      hide DebitReceipt, Normalized;
      latestStart := ZERO;
      var i := 0;
      assert novel[0..] == novel;
      while i < |novel|
        invariant 0 <= i <= |novel| && governor.Valid()
        invariant DebitReceipts(governor.config, old(governor.View()), View(), novel, now)
               == DebitReceipts(governor.config, governor.View(), View(), novel[i..], now)
        invariant latestStart == LatestStart(novel[..i], startedAt, now)
      {
        assert novel[i..][1..] == novel[i + 1..];
        assert novel[..i + 1][..i] == novel[..i];
        governor.DebitReceipt(View(), novel[i], now);
        var protectedStart := Normalized(novel[i].startedAt, startedAt, now);
        if protectedStart > latestStart {
          latestStart := protectedStart;
        }
        i := i + 1;
      }
      assert novel[..i] == novel;
    }

    // The backoff and the state after recording the first outcomes of a plan.
    ghost predicate Recorded(origin: State, outcomes: seq<Outcome>, draws: seq<Draw>, now: Time, jitters: nat -> Duration, backoff: Duration)
      requires governor.Valid()
      reads this, governor, governor.ledger
    {
      && |draws| == |outcomes|
      && (forall i :: 0 <= i < |draws| ==> draws[i].jitter == jitters(i))
      && DrawsFit(governor.config, origin, request.task, now, outcomes, draws)
      && governor.View() == RecordAll(governor.config, origin, request.task, now, outcomes, draws).0
      && backoff == RecordAll(governor.config, origin, request.task, now, outcomes, draws).1
    }

    // Records one outcome per new receipt, then the call's own when it says
    // something else.
    method RecordReceipts(novel: seq<Receipt>, call: Outcome, now: Time, jitters: nat -> Duration)
      returns (aggregate: OutcomeClass, backoff: Duration, ghost draws: seq<Draw>)
      requires governor.Valid() && novel != []
      modifies governor, governor.ledger
      ensures governor.Valid()
      ensures Recorded(old(governor.View()), OutcomesToRecord(novel, call), draws, now, jitters, backoff)
      ensures aggregate == Aggregate(if call.class_.Unclassified? then Success else call.class_, novel)
    {
      hide Recorded, OutcomesToRecord, RecordAll, ReceiptClassOf, Stronger;
      ghost var origin, outcomes := governor.View(), OutcomesToRecord(novel, call);
      aggregate := if call.class_.Unclassified? then Success else call.class_;
      ghost var first := aggregate;
      backoff, draws := 0, [];
      NothingRecorded(now, jitters);
      PlanEnds(novel, call);
      var i := 0;
      while i < |novel|
        invariant 0 <= i <= |novel| && governor.Valid()
        invariant Recorded(origin, outcomes[..i], draws, now, jitters, backoff)
        invariant aggregate == Aggregate(first, novel[..i])
      {
        var outcome := PlanReceipt(novel, i, call);
        backoff, draws := Record(outcome, now, jitters, i, backoff, outcomes[..i], draws, origin);
        assert outcomes[..i] + [outcome] == outcomes[..i + 1];
        aggregate := Stronger(aggregate, ReceiptClassOf(novel[i].outcome));
        assert novel[..i + 1][..i] == novel[..i];
        i := i + 1;
      }
      assert novel[..i] == novel;
      if call.class_ !in {Unclassified, Success} && call.class_ != ReceiptClassOf(novel[i - 1].outcome) {
        backoff, draws := Record(call, now, jitters, i, backoff, outcomes[..i], draws, origin);
      }
    }

    lemma NothingRecorded(now: Time, jitters: nat -> Duration)
      requires governor.Valid()
      ensures Recorded(governor.View(), [], [], now, jitters, 0)
    {
    }

    // Records one more outcome and keeps the longest backoff so far.
    method Record(outcome: Outcome, now: Time, jitters: nat -> Duration, index: nat, longest: Duration,
                  ghost before: seq<Outcome>, ghost draws: seq<Draw>, ghost origin: State)
      returns (backoff: Duration, ghost all: seq<Draw>)
      requires governor.Valid() && |before| == index && Recorded(origin, before, draws, now, jitters, longest)
      modifies governor, governor.ledger
      ensures governor.Valid() && Recorded(origin, before + [outcome], all, now, jitters, backoff)
    {
      hide RecordOutcome, AsRecorded;
      var result;
      ghost var draw;
      result, draw := governor.RecordOutcome(now, request.task, outcome, jitters(index));
      all := draws + [draw];
      backoff := if result.backoff > longest then result.backoff else longest;
      assert (before + [outcome])[..index] == before && all[..index] == draws;
    }

    // Remembers and debits the receipts not seen before.
    method Reconcile(novel: seq<Receipt>, now: Time) returns (latestStart: Time, ghost surveyed: Choice)
      requires governor.Valid()
      modifies governor, governor.ledger
      ensures governor.Valid() && latestStart == LatestStart(novel, startedAt, now)
      ensures var before := old(governor.View()); Fits(before.(attemptIDs := Remember(before.attemptIDs, novel, now)), now, surveyed)
      ensures governor.View() == Reconciled(governor.config, old(governor.View()), View(), novel, now, surveyed)
    {
      hide Survey, Remember, DebitReceipts, LatestStart, ChoiceFits;
      var seen := RememberAll(governor.attemptIDs, novel, now);
      governor.attemptIDs := seen;
      surveyed := governor.BudgetSnapshot(now, request.task);
      latestStart := DebitNewReceipts(novel, now);
    }

    // The receipts were believed: debit the new ones, record what they say,
    // and let the lane go.
    method Settle(reported: Outcome, receipts: seq<Receipt>, novel: seq<Receipt>, error: Option<PermitError>, now: Time, jitters: nat -> Duration)
      returns (result: FinishResult, ghost surveyed: Choice, ghost draws: seq<Draw>)
      requires governor.Valid() && novel != []
      modifies this, governor, governor.ledger
      ensures governor.Valid() && |draws| == |OutcomesToRecord(novel, CallOutcome(reported))|
      ensures var before := old(governor.View());
              && Fits(before.(attemptIDs := Remember(before.attemptIDs, novel, now)), now, surveyed)
              && DrawsFit(governor.config, Reconciled(governor.config, before, old(View()), novel, now, surveyed), request.task, now,
                          OutcomesToRecord(novel, CallOutcome(reported)), draws)
      ensures (governor.View(), View(), result)
           == FinishReconciled(governor.config, old(governor.View()), old(View()), reported, receipts, novel, error, now, surveyed, draws)
    {
      hide Reconciled, OutcomesToRecord, RecordAll, LatestStart, Aggregate, ContainsUncertain, Recoverable, Stronger, CallOutcome,
           Lane.Conclude;
      var latestStart;
      latestStart, surveyed := Reconcile(novel, now);
      var call := Reclaim(reported);
      var aggregate, backoff;
      aggregate, backoff, draws := RecordReceipts(novel, call, now, jitters);
      if ContainsUncertain(receipts) {
        aggregate := Stronger(aggregate, UncertainReached);
      }
      result := governor.ResultOf(Stronger(Success, aggregate), request.task, backoff, |novel|, reported.delivery);
      if error.Some? {
        result := result.(error := error, outcome := Stronger(result.outcome, UncertainReached), retryEligible := false);
      }
      completed := true;
      governor.Conclude(request.id, error.Some?, latestStart, now);
    }

    method FinishWithAttemptReceipts(outcome: Outcome, set_: Option<ReceiptSet>, now: Time, jitters: nat -> Duration)
      returns (result: FinishResult, ghost draws: Draws)
      requires governor.Valid()
      modifies this, governor, governor.ledger
      ensures governor.Valid()
      ensures Settles(governor.config, old(governor.View()), old(View()), outcome, set_, now, draws.evicted) ==>
                |draws.outcomes| == |OutcomesToRecord(NewReceipts(old(governor.View()), set_.value, now, draws.evicted), CallOutcome(outcome))|
      ensures FinishError(old(View())).None? && old(receiptAware) ==>
                DrawsOf(governor.config, old(governor.View()), old(View()), outcome, set_, now, draws)
      ensures (governor.View(), View(), result)
           == FinishReceipts(governor.config, old(governor.View()), old(View()), outcome, set_, now, draws)
    {
      hide Rejection, FinishReconciled, ReceiptFailure, OutcomesToRecord, CallOutcome, Unseen, YoungAttempts, PolicyError, AttemptsFit, ChoiceFits,
           DrawsFit, Lane.Reconciled, Remember;
      draws := Draws({}, Choice({}, {}), []);
      if completed {
        result := Refused(PermitCompleted);
        return;
      }
      if !started {
        result := Refused(PermitNotStarted);
        return;
      }
      if !receiptAware {
        result := Refused(ReceiptsRequired);
        return;
      }
      var rejection := Some(Code.InvalidField);
      if set_.Some? {
        rejection := Validate(set_.value, Expected(governor.config, View(), now));
      }
      ghost var surveyed;
      if rejection.Some? {
        result, surveyed := FinishReceiptFailure(ReceiptsInvalid, true, outcome.delivery, now);
        draws := Draws({}, surveyed, []);
        return;
      }
      ghost var evicted;
      evicted := governor.PruneAttemptIDs(now);
      var novel := SelectUnseen(set_.value.receipts, governor.attemptIDs);
      var policy := CheckPolicy(governor.config, set_.value, View(), now, |novel| < |set_.value.receipts|);
      if |novel| == 0 {
        var error := if policy.Some? then policy.value else ReceiptReplayed;
        result, surveyed := FinishReceiptFailure(error, false, outcome.delivery, now);
        draws := Draws(evicted, surveyed, []);
        return;
      }
      ghost var recorded;
      result, surveyed, recorded := Settle(outcome, set_.value.receipts, novel, policy, now, jitters);
      draws := Draws(evicted, surveyed, recorded);
    }
  }
}
