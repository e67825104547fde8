/** A client request id has at most one holder, and stays refused for a full
    retention window after its request completed.
 */
module RequestIds {
  import opened Clock
  import opened Policy
  import opened Retention
  import opened AttemptReceipts
  import opened Lane
  import opened Runs
  import opened SingleLane

  // ----- What pruning may do to the request records -----

  // `s'` differs from `s` at most by forgetting completed requests; while the
  // list fits its cap, only those completed a retention window before `now`.
  ghost predicate Forgot(s: State, s': State, now: Time) {
    && s'.queue == s.queue
    && SameLane(s, s')
    && |s'.completed| <= |s.completed|
    && (forall id :: id in s'.requestIDs ==> id in s.requestIDs && s'.requestIDs[id] == s.requestIDs[id])
    && (forall id :: id in s.requestIDs && id !in s'.requestIDs ==> s.requestIDs[id].Completed?)
    && (|s.completed| <= MAX_COMPLETED ==>
          forall id :: id in s.requestIDs && id !in s'.requestIDs ==> s.requestIDs[id].at + RETENTION <= now)
    && (Listed(s) ==> Listed(s'))
    && UnlistedStay(s, s')
  }

  // A completed request without an entry in that list.
  predicate Unlisted(s: State, id: Id) {
    id in s.requestIDs && s.requestIDs[id].Completed? && Completion(id, s.requestIDs[id].at) !in s.completed
  }

  ghost predicate UnlistedStay(s: State, s': State) {
    forall id :: Unlisted(s, id) ==> Unlisted(s', id) && s'.requestIDs[id] == s.requestIDs[id]
  }

  // Every completed request has its entry in the list pruning walks.
  ghost predicate Listed(s: State) {
    forall id :: id in s.requestIDs && s.requestIDs[id].Completed? ==> Completion(id, s.requestIDs[id].at) in s.completed
  }

  lemma {:induction false} ScanKeepsListed(entries: seq<Completion>, ids: map<Id, Record>, cutoff: Time, id: Id)
    requires var left := Scan(entries, ids, cutoff).1; id in left && left[id].Completed?
    requires id in ids && ids[id].Completed? && Completion(id, ids[id].at) in entries
    ensures Completion(id, ids[id].at) in Scan(entries, ids, cutoff).0
    ensures ids[id].at > cutoff
  {
    var entry := entries[0];
    var ids' := if entry.id in ids && ids[entry.id] == Completed(entry.at) && entry.at <= cutoff then ids - {entry.id} else ids;
    ScanOnlyForgets(entries, ids, cutoff);
    ScanOnlyForgets(entries[1..], ids', cutoff);
    if entry != Completion(id, ids[id].at) {
      ScanKeepsListed(entries[1..], ids', cutoff, id);
    }
  }

  lemma {:induction false} TrimKeepsListed(entries: seq<Completion>, ids: map<Id, Record>, id: Id)
    requires var left := Trim(entries, ids).1; id in left && left[id].Completed?
    requires id in ids && ids[id].Completed? && Completion(id, ids[id].at) in entries
    ensures Completion(id, ids[id].at) in Trim(entries, ids).0
    decreases |entries|
  {
    TrimOnlyForgets(entries, ids);
    if |entries| > MAX_COMPLETED {
      var entry := entries[0];
      var ids' := if entry.id in ids && ids[entry.id] == Completed(entry.at) then ids - {entry.id} else ids;
      TrimOnlyForgets(entries[1..], ids');
      TrimKeepsListed(entries[1..], ids', id);
    }
  }

  lemma PruneKeepsListed(s: State, now: Time, choice: Choice)
    requires Listed(s)
    ensures Listed(Prune(s, now, choice))
    ensures var left := Prune(s, now, choice).requestIDs;
            forall id :: id in left && left[id].Completed? ==> left[id].at + RETENTION > now
  {
    hide YoungTasks, YoungAttempts, Keepers, Scan, Trim;
    var (kept, left) := Scan(s.completed, s.requestIDs, now - RETENTION);
    ScanOnlyForgets(s.completed, s.requestIDs, now - RETENTION);
    TrimOnlyForgets(kept, left);
    forall id | id in Trim(kept, left).1 && left[id].Completed?
      ensures Completion(id, left[id].at) in Trim(kept, left).0 && left[id].at + RETENTION > now
    {
      ScanKeepsListed(s.completed, s.requestIDs, now - RETENTION, id);
      TrimKeepsListed(kept, left, id);
    }
  }

  // Pruning walks the list, so it cannot meet a request the list lacks.
  lemma {:induction false} ScanSparesUnlisted(entries: seq<Completion>, ids: map<Id, Record>, cutoff: Time, id: Id)
    requires id in ids && ids[id].Completed? && Completion(id, ids[id].at) !in entries
    ensures var (kept, left) := Scan(entries, ids, cutoff);
            id in left && left[id] == ids[id] && (forall e :: e in kept ==> e in entries)
  {
    if entries != [] {
      var entry := entries[0];
      var ids' := if entry.id in ids && ids[entry.id] == Completed(entry.at) && entry.at <= cutoff then ids - {entry.id} else ids;
      assert entry != Completion(id, ids[id].at);
      ScanSparesUnlisted(entries[1..], ids', cutoff, id);
    }
  }

  lemma {:induction false} TrimSparesUnlisted(entries: seq<Completion>, ids: map<Id, Record>, id: Id)
    requires id in ids && ids[id].Completed? && Completion(id, ids[id].at) !in entries
    ensures var (kept, left) := Trim(entries, ids);
            id in left && left[id] == ids[id] && (forall e :: e in kept ==> e in entries)
    decreases |entries|
  {
    if |entries| > MAX_COMPLETED {
      var entry := entries[0];
      assert entry in entries;
      TrimSparesUnlisted(entries[1..], if entry.id in ids && ids[entry.id] == Completed(entry.at) then ids - {entry.id} else ids, id);
    }
  }

  lemma PruneSparesUnlisted(s: State, now: Time, choice: Choice)
    ensures UnlistedStay(s, Prune(s, now, choice))
  {
    hide YoungTasks, YoungAttempts, Keepers, Scan, Trim;
    var (kept, left) := Scan(s.completed, s.requestIDs, now - RETENTION);
    forall id | Unlisted(s, id)
      ensures Unlisted(Prune(s, now, choice), id) && Prune(s, now, choice).requestIDs[id] == s.requestIDs[id]
    {
      ScanSparesUnlisted(s.completed, s.requestIDs, now - RETENTION, id);
      TrimSparesUnlisted(kept, left, id);
    }
  }

  lemma PruneForgets(s: State, now: Time, choice: Choice)
    ensures Forgot(s, Prune(s, now, choice), now)
  {
    hide YoungTasks, YoungAttempts, Keepers, PruneRequests, Listed, UnlistedStay;
    PruneSparesUnlisted(s, now, choice);
    PruneForgetsOnlyCompleted(s.completed, s.requestIDs, now);
    PruneShrinks(s.completed, s.requestIDs, now);
    if Listed(s) {
      PruneKeepsListed(s, now, choice);
    }
  }

  lemma PruneShrinks(entries: seq<Completion>, ids: map<Id, Record>, now: Time)
    ensures |PruneRequests(entries, ids, now).0| <= |entries|
  {
    var (kept, left) := Scan(entries, ids, now - RETENTION);
    ScanOnlyForgets(entries, ids, now - RETENTION);
    TrimShrinks(kept, left);
  }

  lemma {:induction false} TrimShrinks(entries: seq<Completion>, ids: map<Id, Record>)
    ensures |Trim(entries, ids).0| <= |entries|
    decreases |entries|
  {
    if |entries| > MAX_COMPLETED {
      var entry := entries[0];
      TrimShrinks(entries[1..], if entry.id in ids && ids[entry.id] == Completed(entry.at) then ids - {entry.id} else ids);
    }
  }

  lemma ExpireForgets(c: Config, s: State, now: Time, choice: Choice)
    ensures Forgot(s, Expire(c, s, now, choice), now)
  {
    hide Prune, RecentRates, ExpireTelemetry;
    PruneForgets(s, now, choice);
  }

  lemma SurveyForgets(c: Config, s: State, task: Id, now: Time, choice: Choice)
    ensures Forgot(s, Survey(c, s, task, now, choice), now)
  {
    hide Lane.Expire;
    ExpireForgets(c, s, now, choice);
  }

  lemma CheckForgets(c: Config, s: State, request: Request, now: Time, at: Time, choice: Choice)
    ensures Forgot(s, Check(c, s, request, now, at, choice).0, now)
  {
    hide Lane.Expire, CircuitChecked, GateVerdict, BudgetVerdict, Forgot;
    ExpireForgets(c, s, now, choice);
    ForgotAlike(s, Lane.Expire(c, s, now, choice), Check(c, s, request, now, at, choice).0, now);
  }

  lemma ForgotAlike(s: State, s1: State, s2: State, now: Time)
    requires Forgot(s, s1, now)
    requires s2.queue == s1.queue && SameLane(s1, s2) && s2.completed == s1.completed && s2.requestIDs == s1.requestIDs
    ensures Forgot(s, s2, now)
  {
  }

  lemma RecordOutcomeForgets(c: Config, s: State, task: Id, now: Time, outcome: Outcome, draw: Draw)
    ensures Forgot(s, RecordOutcome(c, s, task, now, outcome, draw).0, now)
  {
    hide Lane.Expire, RateResponse, SelectedBackoff, OtherResponse, AsRecorded, Forgot;
    var s', s1 := RecordOutcome(c, s, task, now, outcome, draw).0, Lane.Expire(c, s, now, draw.choice);
    ExpireForgets(c, s, now, draw.choice);
    NothingForgotten(s, s, now);
    ForgotAlike(s, if AsRecorded(outcome).class_.RateCapacity? then s1 else s, s', now);
  }

  lemma {:induction false} RecordAllForgets(c: Config, s: State, task: Id, now: Time, outcomes: seq<Outcome>, draws: seq<Draw>)
    requires |draws| == |outcomes|
    ensures Forgot(s, RecordAll(c, s, task, now, outcomes, draws).0, now)
  {
    hide RecordOutcome;
    if outcomes != [] {
      var last := |outcomes| - 1;
      RecordAllForgets(c, s, task, now, outcomes[..last], draws[..last]);
      RecordOutcomeForgets(c, RecordAll(c, s, task, now, outcomes[..last], draws[..last]).0, task, now, outcomes[last], draws[last]);
    }
  }

  lemma {:induction false} DebitReceiptsForget(c: Config, s: State, p: Permit, receipts: seq<Receipt>, now: Time)
    ensures Forgot(s, DebitReceipts(c, s, p, receipts, now), now)
    decreases receipts
  {
    hide Normalized, Spend;
    if receipts != [] {
      DebitReceiptsForget(c, DebitReceipt(c, s, p, receipts[0], now), p, receipts[1..], now);
    }
  }

  // ----- One holder per id -----

  ghost predicate Waiting(s: State) {
    && (forall i, j :: 0 <= i < j < |s.queue| ==> s.queue[i].request.id != s.queue[j].request.id)
    && (forall i :: 0 <= i < |s.queue| ==> s.queue[i].request.id in s.requestIDs && s.requestIDs[s.queue[i].request.id].Pending?)
  }

  ghost predicate Holding(s: State, p: Permit) {
    && p.request.id in s.requestIDs
    && s.requestIDs[p.request.id] == (if p.started then Active else Pending)
    && (forall i :: 0 <= i < |s.queue| ==> s.queue[i].request.id != p.request.id)
  }

  // A request completed less than a retention window before `now` is kept.
  ghost predicate Careful(s: State, s': State, now: Time) {
    && (Listed(s) ==> Listed(s'))
    && UnlistedStay(s, s')
    && (|s.completed| <= MAX_COMPLETED ==>
          forall id :: id in s.requestIDs && s.requestIDs[id].Completed? && now < s.requestIDs[id].at + RETENTION
                       ==> id in s'.requestIDs && s'.requestIDs[id] == s.requestIDs[id])
  }

  // Forgetting completed requests disturbs no holder.
  lemma ForgettingKeepsHolders(s: State, s': State, now: Time, p: Permit)
    requires Forgot(s, s', now) && Waiting(s)
    ensures Waiting(s') && (Holding(s, p) ==> Holding(s', p))
  {
    hide Listed;
  }

  lemma ForgettingIsCareful(s: State, s1: State, s2: State, now: Time, at: Time)
    requires Forgot(s, s1, now) && now <= at && Careful(s1, s2, at)
    ensures Careful(s, s2, at)
  {
    hide Listed;
  }

  lemma RemovingKeepsHolders(s: State, index: nat, p: Permit, at: Time)
    requires Waiting(s) && index < |s.queue|
    ensures var s' := WithoutWaiter(s, index);
            && Waiting(s') && (Holding(s, p) ==> Holding(s', p))
            && s.queue[index].request.id !in s'.requestIDs
            && (forall i :: 0 <= i < |s'.queue| ==> s'.queue[i].request.id != s.queue[index].request.id)
            && Careful(s, s', at)
  {
  }

  lemma GrantingHolds(s: State, request: Request, at: Time)
    requires Waiting(s) && request.id !in s.requestIDs
    ensures var s' := Grant(Reserve(s, request.id), request); Waiting(s') && Holding(s', Fresh(request)) && Careful(s, s', at)
  {
  }

  lemma RegrantingHolds(s: State, index: nat, at: Time)
    requires Waiting(s) && index < |s.queue|
    ensures var request := s.queue[index].request;
            var s' := Grant(Reserve(WithoutWaiter(s, index), request.id), request);
            Waiting(s') && Holding(s', Fresh(request)) && Careful(s, s', at)
  {
    RemovingKeepsHolders(s, index, Fresh(s.queue[index].request), at);
    GrantingHolds(WithoutWaiter(s, index), s.queue[index].request, at);
  }

  lemma AdmitKeepsHolders(c: Config, s: State, request: Request, at: Time, observed: Option<TelemetrySnapshot>, cancelled: bool,
                          pruned: Choice, checked: Choice, p: Permit)
    requires Waiting(s)
    ensures var (s', admission) := TryAdmit(c, s, request, at, observed, cancelled, pruned, checked);
            && Waiting(s') && Careful(s, s', at)
            && (admission.Granted? ==> !s.inFlight && Holding(s', admission.permit))
            && (Holding(s, p) ==> Holding(s', p) || admission.Granted?)
  {
    hide Check, Prune, Observe, Waiting, Holding, Grant, Reserve, Listed;
    var s1 := Prune(s, at, pruned);
    var s2 := Observe(c, s1, observed, at);
    PruneForgets(s, at, pruned);
    ForgettingKeepsHolders(s, s1, at, p);
    ObservingForgets(c, s1, observed, at);
    ForgettingKeepsHolders(s1, s2, at, p);
    CheckForgets(c, s2, request, at, at, checked);
    CheckNeedsFreeLane(c, s2, request, at, at, checked);
    var s3 := Check(c, s2, request, at, at, checked).0;
    ForgettingKeepsHolders(s2, s3, at, p);
    if request.id !in s1.requestIDs {
      GrantingHolds(s3, request, at);
    }
    hide Careful, Forgot;
    var s' := TryAdmit(c, s, request, at, observed, cancelled, pruned, checked).0;
    if !s.closed {
      if s' != s1 {
        if s' == s3 {
          NothingDoneIsCareful(s3, at);
        }
        ForgettingIsCareful(s2, s3, s', at, at);
        ForgettingIsCareful(s1, s2, s', at, at);
      } else {
        NothingDoneIsCareful(s1, at);
      }
      ForgettingIsCareful(s, s1, s', at, at);
    } else {
      NothingDoneIsCareful(s, at);
    }
  }

  lemma NothingDoneIsCareful(s: State, at: Time)
    ensures Careful(s, s, at)
  {
  }

  lemma ObservingForgets(c: Config, s: State, observed: Option<TelemetrySnapshot>, now: Time)
    ensures Forgot(s, Observe(c, s, observed, now), now)
  {
    hide TelemetryAfter, CircuitAfter, CooldownAfter;
  }

  lemma LookKeepsHolders(c: Config, s: State, index: nat, now: Time, at: Time, observed: Option<TelemetrySnapshot>, cancelled: bool,
                         checked: Choice, p: Permit)
    requires Waiting(s) && index < |s.queue| && now <= at
    ensures var (s', admission) := QueueCheck(c, s, index, now, at, observed, cancelled, checked);
            && Waiting(s') && Careful(s, s', at)
            && (admission.Granted? ==> !s.inFlight && Holding(s', admission.permit))
            && (Holding(s, p) ==> Holding(s', p) || admission.Granted?)
  {
    hide Check, Observe, Waiting, Holding, Grant, Reserve, WithoutWaiter, Careful, Listed;
    var s1 := Observe(c, s, observed, now);
    var request := s.queue[index].request;
    ObservingForgets(c, s, observed, now);
    ForgettingKeepsHolders(s, s1, now, p);
    CheckForgets(c, s1, request, now, at, checked);
    CheckNeedsFreeLane(c, s1, request, now, at, checked);
    var s2 := Check(c, s1, request, now, at, checked).0;
    ForgettingKeepsHolders(s1, s2, now, p);
    RemovingKeepsHolders(s1, index, p, at);
    RemovingKeepsHolders(s2, index, p, at);
    RegrantingHolds(s2, index, at);
    NothingDoneIsCareful(s2, at);
    hide Forgot;
    var s' := QueueCheck(c, s, index, now, at, observed, cancelled, checked).0;
    if !cancelled {
      ForgettingIsCareful(s1, s2, s', now, at);
    }
    ForgettingIsCareful(s, s1, s', now, at);
  }

  lemma JoiningKeepsHolders(s: State, request: Request, p: Permit, at: Time)
    requires Waiting(s) && request.id !in s.requestIDs
    ensures var s' := Joined(s, request);
            Waiting(s') && (Holding(s, p) ==> Holding(s', p)) && Careful(s, s', at)
  {
    var s' := Joined(s, request);
    assert forall i :: 0 <= i < |s.queue| ==> s'.queue[i] == s.queue[i];
  }

  lemma JoinKeepsHolders(c: Config, s: State, request: Request, at: Time, pruned: Choice, p: Permit)
    requires Waiting(s)
    ensures var s' := Enqueue(c, s, request, at, pruned).0;
            SameLane(s, s') && Waiting(s') && (Holding(s, p) ==> Holding(s', p)) && Careful(s, s', at)
  {
    hide Prune, Listed, Waiting, Holding, Careful;
    PruneForgets(s, at, pruned);
    var s1 := Prune(s, at, pruned);
    ForgettingKeepsHolders(s, s1, at, p);
    NothingDoneIsCareful(s1, at);
    NothingDoneIsCareful(s, at);
    ForgettingIsCareful(s, s1, s1, at, at);
    if request.id !in s1.requestIDs {
      JoiningKeepsHolders(s1, request, p, at);
      ForgettingIsCareful(s, s1, Joined(s1, request), at, at);
    }
  }

  // ----- Permit steps -----

  lemma ActivatingKeepsHolders(s: State, s1: State, p: Permit, at: Time)
    requires Waiting(s) && Holding(s, p) && !p.started && s1.queue == s.queue && s1.completed == s.completed
    requires s1.requestIDs == s.requestIDs[p.request.id := Active]
    ensures Waiting(s1) && Holding(s1, p.(started := true)) && Careful(s, s1, at)
  {
  }

  lemma StartKeepsHolders(c: Config, s: State, p: Permit, receiptAware: bool, at: Time, choice: Choice)
    requires Waiting(s) && Holding(s, p)
    ensures var (s', p', _) := Start(c, s, p, receiptAware, at, choice); Waiting(s') && Holding(s', p') && Careful(s, s', at)
  {
    hide Survey, Waiting, Listed, Careful, Spend;
    var s1 := Survey(c, s, p.request.task, at, choice);
    SurveyForgets(c, s, p.request.task, at, choice);
    ForgettingKeepsHolders(s, s1, at, p);
    if StartError(s, p).None? {
      var s' := Start(c, s, p, receiptAware, at, choice).0;
      ActivatingKeepsHolders(s1, s', p, at);
      ForgettingIsCareful(s, s1, s', at, at);
    } else {
      NothingDoneIsCareful(s, at);
    }
  }

  lemma CompletingKeepsHolders(s: State, p: Permit, at: Time)
    requires Waiting(s) && Holding(s, p) && p.started
    ensures var s' := Vacate(Complete(s, p.request.id, at)); Waiting(s') && Careful(s, s', at)
  {
  }

  lemma FinishKeepsHolders(c: Config, s: State, p: Permit, outcome: Outcome, at: Time, surveyed: Choice, draw: Draw)
    requires Waiting(s) && Holding(s, p)
    ensures var s' := Lane.Finish(c, s, p, outcome, at, surveyed, draw).0; Waiting(s') && Careful(s, s', at)
    ensures FinishError(p).Some? || p.receiptAware ==> Lane.Finish(c, s, p, outcome, at, surveyed, draw).0 == s
  {
    hide Survey, RecordOutcome, Waiting, Holding, Listed, Careful, Forgot, Complete;
    var task := p.request.task;
    var s1 := Survey(c, s, task, at, surveyed);
    var s2 := RecordOutcome(c, s1, task, at, outcome, draw).0;
    SurveyForgets(c, s, task, at, surveyed);
    ForgettingKeepsHolders(s, s1, at, p);
    RecordOutcomeForgets(c, s1, task, at, outcome, draw);
    ForgettingKeepsHolders(s1, s2, at, p);
    if FinishError(p).None? && !p.receiptAware {
      CompletingKeepsHolders(s2, p, at);
      var s' := Vacate(Complete(s2, p.request.id, at));
      ForgettingIsCareful(s1, s2, s', at, at);
      ForgettingIsCareful(s, s1, s', at, at);
    } else {
      NothingDoneIsCareful(s, at);
    }
  }

  // Completing after any number of prunes.
  lemma CompletingAfterForgetting(s: State, s1: State, p: Permit, at: Time)
    requires Waiting(s) && Holding(s, p) && p.started && Forgot(s, s1, at)
    ensures var s' := Vacate(Complete(s1, p.request.id, at)); Waiting(s') && Careful(s, s', at)
  {
    hide Waiting, Holding, Listed, Careful, Forgot, Complete;
    ForgettingKeepsHolders(s, s1, at, p);
    CompletingKeepsHolders(s1, p, at);
    ForgettingIsCareful(s, s1, Vacate(Complete(s1, p.request.id, at)), at, at);
  }

  lemma ForgotThenForgot(s: State, s1: State, s2: State, now: Time)
    requires Forgot(s, s1, now) && Forgot(s1, s2, now)
    ensures Forgot(s, s2, now)
  {
    hide Listed;
  }

  lemma ReceiptFailureKeepsHolders(c: Config, s: State, p: Permit, error: PermitError, debit: bool, delivery: Delivery, at: Time, choice: Choice)
    requires Waiting(s) && Holding(s, p) && p.started
    ensures var s' := ReceiptFailure(c, s, p, error, debit, delivery, at, choice).0; Waiting(s') && Careful(s, s', at)
  {
    hide Survey, Complete, Waiting, Holding, Listed, Careful, Forgot, Spend, Vacate;
    var unsafe := Distrusted(s);
    var s1 := Survey(c, unsafe, p.request.task, at, choice);
    var s2 := if debit then DebitUncertain(c, s1, p.request, p.startedAt, at) else s1;
    SurveyForgets(c, unsafe, p.request.task, at, choice);
    AlikeForgot(s, unsafe, s1, at);
    ForgotAlike(s, s1, s2, at);
    CompletingAfterForgetting(s, s2, p, at);
  }

  lemma AlikeForgot(s: State, s1: State, s2: State, now: Time)
    requires s1.queue == s.queue && SameLane(s, s1) && s1.completed == s.completed && s1.requestIDs == s.requestIDs
    requires Forgot(s1, s2, now)
    ensures Forgot(s, s2, now)
  {
  }

  lemma ReconcilingForgets(c: Config, s: State, p: Permit, novel: seq<Receipt>, at: Time, surveyed: Choice)
    ensures Forgot(s, Reconciled(c, s, p, novel, at, surveyed), at)
  {
    hide Survey, Remember, DebitReceipts, Forgot;
    var remembered := s.(attemptIDs := Remember(s.attemptIDs, novel, at));
    var s1 := Survey(c, remembered, p.request.task, at, surveyed);
    SurveyForgets(c, remembered, p.request.task, at, surveyed);
    AlikeForgot(s, remembered, s1, at);
    DebitReceiptsForget(c, s1, p, novel, at);
    ForgotThenForgot(s, s1, DebitReceipts(c, s1, p, novel, at), at);
  }

  lemma FinishReconciledKeepsHolders(c: Config, s: State, p: Permit, outcome: Outcome, receipts: seq<Receipt>, novel: seq<Receipt>,
                                     error: Option<PermitError>, at: Time, surveyed: Choice, draws: seq<Draw>)
    requires Waiting(s) && Holding(s, p) && p.started && novel != []
    requires |draws| == |OutcomesToRecord(novel, CallOutcome(outcome))|
    ensures var s' := FinishReconciled(c, s, p, outcome, receipts, novel, error, at, surveyed, draws).0; Waiting(s') && Careful(s, s', at)
  {
    hide Reconciled, RecordAll, OutcomesToRecord, CallOutcome, Complete, Waiting, Holding, Listed, Careful, Forgot, LatestStart, SettledClass,
         ConcludedResult, Vacate;
    var s1 := Reconciled(c, s, p, novel, at, surveyed);
    var plan := OutcomesToRecord(novel, CallOutcome(outcome));
    var s2 := RecordAll(c, s1, p.request.task, at, plan, draws).0;
    ReconcilingForgets(c, s, p, novel, at, surveyed);
    RecordAllForgets(c, s1, p.request.task, at, plan, draws);
    ForgotThenForgot(s, s1, s2, at);
    var s3 := if error.Some? then Distrusted(s2) else s2;
    var s4 := s3.(lastStart := Max(s3.lastStart, LatestStart(novel, p.startedAt, at)));
    ForgotAlike(s, s2, s4, at);
    CompletingAfterForgetting(s, s4, p, at);
  }

  lemma ReceiptsKeepHolders(c: Config, s: State, p: Permit, outcome: Outcome, set_: Option<ReceiptSet>, at: Time, draws: Draws)
    requires Waiting(s) && Holding(s, p)
    requires Settles(c, s, p, outcome, set_, at, draws.evicted) ==>
      |draws.outcomes| == |OutcomesToRecord(NewReceipts(s, set_.value, at, draws.evicted), CallOutcome(outcome))|
    ensures var s' := FinishReceipts(c, s, p, outcome, set_, at, draws).0; Waiting(s') && Careful(s, s', at)
  {
    hide Rejection, ReceiptFailure, FinishReconciled, PolicyError, NewReceipts, OutcomesToRecord, CallOutcome, YoungAttempts,
         Waiting, Holding, Listed, Careful, Forgot;
    if FinishError(p).Some? || !p.receiptAware {
      NothingDoneIsCareful(s, at);
    } else if set_.None? || Rejection(set_.value, Expected(c, p, at)).Some? {
      ReceiptFailureKeepsHolders(c, s, p, ReceiptsInvalid, true, outcome.delivery, at, draws.surveyed);
    } else {
      var pruned := s.(attemptIDs := YoungAttempts(s.attemptIDs, at) - draws.evicted);
      var novel := NewReceipts(s, set_.value, at, draws.evicted);
      var policy := PolicyError(c, set_.value, p, at, |novel| < |set_.value.receipts|);
      NothingForgotten(s, pruned, at);
      ForgettingKeepsHolders(s, pruned, at, p);
      if novel == [] {
        ReceiptFailureKeepsHolders(c, pruned, p, if policy.Some? then policy.value else ReceiptReplayed, false, outcome.delivery, at, draws.surveyed);
      } else {
        FinishReconciledKeepsHolders(c, pruned, p, outcome, set_.value.receipts, novel, policy, at, draws.surveyed, draws.outcomes);
      }
      ForgettingIsCareful(s, pruned, FinishReceipts(c, s, p, outcome, set_, at, draws).0, at, at);
    }
  }

  lemma NothingForgotten(s: State, s1: State, now: Time)
    requires s1.queue == s.queue && SameLane(s, s1) && s1.completed == s.completed && s1.requestIDs == s.requestIDs
    ensures Forgot(s, s1, now)
  {
  }

  // ----- Runs -----

  // Waiters and the live permit hold distinct ids, and each holder's record
  // says how far it got.
  ghost predicate Held(w: World) {
    && OneLane(w)
    && Waiting(w.gov)
    && (w.gov.inFlight ==> Holding(w.gov, w.permits[|w.permits| - 1]))
  }

  lemma CallerStepKeepsHeld(c: Config, w: World, step: Label)
    requires Enabled(c, w, step) && Held(w) && (step.Admit? || step.Look? || step.Join?)
    ensures Held(Step(c, w, step)) && Careful(w.gov, Step(c, w, step).gov, Instant(w, step))
  {
    hide Lane.TryAdmit, QueueCheck, Enqueue, Waiting, Holding, Careful;
    StepKeepsOneLane(c, w, step);
    var p := if w.permits == [] then Fresh(Request("", "", false)) else w.permits[|w.permits| - 1];
    match step {
      case Admit(request, at, observed, cancelled, pruned, checked) =>
        AdmitKeepsHolders(c, w.gov, request, at, observed, cancelled, pruned, checked, p);
      case Look(index, now, at, observed, cancelled, checked) =>
        LookKeepsHolders(c, w.gov, index, now, at, observed, cancelled, checked, p);
      case Join(request, at, pruned) =>
        JoinKeepsHolders(c, w.gov, request, at, pruned, p);
    }
  }

  // The permit a step acts on, when it is uncompleted, is the latest one.
  lemma ActingPermitHolds(w: World, index: nat)
    requires Held(w) && index < |w.permits| && !w.permits[index].completed
    ensures index == |w.permits| - 1 && w.gov.inFlight && Holding(w.gov, w.permits[index])
  {
    hide Holding, Waiting;
  }

  lemma CompletedStepKeepsHeld(c: Config, w: World, step: Label, index: nat)
    requires Enabled(c, w, step) && Held(w) && ActsOn(step, index) && w.permits[index].completed
    ensures Held(Step(c, w, step)) && Careful(w.gov, Step(c, w, step).gov, Instant(w, step))
  {
    hide Step, Waiting, Holding, Careful;
    StepKeepsOneLane(c, w, step);
    CompletedForGood(c, w, step, index);
    NothingDoneIsCareful(w.gov, Instant(w, step));
  }

  lemma StartStepKeepsHeld(c: Config, w: World, step: Label)
    requires Enabled(c, w, step) && Held(w) && step.Begin? && !w.permits[step.permit].completed
    ensures Held(Step(c, w, step)) && Careful(w.gov, Step(c, w, step).gov, Instant(w, step))
  {
    hide Lane.Start, Waiting, Holding, Careful;
    StepKeepsOneLane(c, w, step);
    ActingPermitHolds(w, step.permit);
    StartKeepsHolders(c, w.gov, w.permits[step.permit], step.receiptAware, step.at, step.surveyed);
  }

  lemma CancelStepKeepsHeld(c: Config, w: World, step: Label)
    requires Enabled(c, w, step) && Held(w)
    requires (step.Abandon? || step.Abort?) && !w.permits[step.permit].completed
    ensures Held(Step(c, w, step)) && Careful(w.gov, Step(c, w, step).gov, Instant(w, step))
  {
    hide Waiting, Holding, Careful, Complete, Vacate;
    StepKeepsOneLane(c, w, step);
    var p := w.permits[step.permit];
    ActingPermitHolds(w, step.permit);
    NothingDoneIsCareful(w.gov, Instant(w, step));
    if step.Abandon? && !p.started {
      AbandoningKeepsHolders(w.gov, p, w.clock);
    } else if step.Abort? && p.started {
      CompletingKeepsHolders(w.gov, p, step.at);
    }
  }

  lemma AbandoningKeepsHolders(s: State, p: Permit, at: Time)
    requires Waiting(s) && Holding(s, p) && !p.started
    ensures var s' := Vacate(s.(requestIDs := s.requestIDs - {p.request.id})); Waiting(s') && Careful(s, s', at)
  {
  }

  lemma FinishStepKeepsHeld(c: Config, w: World, step: Label)
    requires Enabled(c, w, step) && Held(w)
    requires step.Finish? && !w.permits[step.permit].completed
    ensures Held(Step(c, w, step)) && Careful(w.gov, Step(c, w, step).gov, Instant(w, step))
  {
    hide Survey, RecordOutcome, Waiting, Holding, Careful, Complete;
    StepKeepsOneLane(c, w, step);
    ActingPermitHolds(w, step.permit);
    FinishKeepsHolders(c, w.gov, w.permits[step.permit], step.outcome, step.at, step.surveyed, step.draw);
    NothingDoneIsCareful(w.gov, step.at);
  }

  lemma ReceiptStepKeepsHeld(c: Config, w: World, step: Label)
    requires Enabled(c, w, step) && Held(w)
    requires step.FinishWithReceipts? && !w.permits[step.permit].completed
    ensures Held(Step(c, w, step)) && Careful(w.gov, Step(c, w, step).gov, Instant(w, step))
  {
    hide ReceiptFailure, FinishReconciled, Rejection, PolicyError, NewReceipts, OutcomesToRecord, CallOutcome, Waiting, Holding, Careful;
    StepKeepsOneLane(c, w, step);
    var p := w.permits[step.permit];
    ActingPermitHolds(w, step.permit);
    ReceiptsKeepHolders(c, w.gov, p, step.outcome, step.set_, step.at, step.draws);
    ReceiptFinishCompletes(c, w.gov, p, step.outcome, step.set_, step.at, step.draws);
  }

  lemma OtherStepKeepsHeld(c: Config, w: World, step: Label)
    requires Enabled(c, w, step) && Held(w)
    requires step.Leave? || step.BeginRefresh? || step.FinishRefresh? || step.Acknowledge? || step.Save? || step.Emit? || step.Shut?
    ensures Held(Step(c, w, step)) && Careful(w.gov, Step(c, w, step).gov, Instant(w, step))
  {
    hide Waiting, Holding, Careful, Forgot, Lane.Expire, WithoutWaiter;
    StepKeepsOneLane(c, w, step);
    var p := if w.permits == [] then Fresh(Request("", "", false)) else w.permits[|w.permits| - 1];
    var s' := Step(c, w, step).gov;
    match step {
      case Leave(index) => RemovingKeepsHolders(w.gov, index, p, w.clock);
      case Shut => ShuttingKeepsHolders(w.gov, p, w.clock);
      case Save(at, pruned) =>
        ExpireForgets(c, w.gov, at, pruned);
        ForgettingKeepsHolders(w.gov, s', at, p);
        NothingDoneIsCareful(s', at);
        ForgettingIsCareful(w.gov, s', s', at, at);
      case Emit(task, at, surveyed) =>
        SurveyForgets(c, w.gov, task, at, surveyed);
        ForgettingKeepsHolders(w.gov, s', at, p);
        NothingDoneIsCareful(s', at);
        ForgettingIsCareful(w.gov, s', s', at, at);
      case _ =>
        NothingForgotten(w.gov, s', w.clock);
        ForgettingKeepsHolders(w.gov, s', w.clock, p);
        NothingDoneIsCareful(s', w.clock);
        ForgettingIsCareful(w.gov, s', s', w.clock, w.clock);
    }
  }

  lemma ShuttingKeepsHolders(s: State, p: Permit, at: Time)
    requires Waiting(s)
    ensures Waiting(Close(s)) && (Holding(s, p) ==> Holding(Close(s), p)) && Careful(s, Close(s), at)
  {
  }

  lemma StepKeepsHeld(c: Config, w: World, step: Label)
    requires Enabled(c, w, step) && Held(w)
    ensures Held(Step(c, w, step)) && Careful(w.gov, Step(c, w, step).gov, Instant(w, step))
  {
    hide Step, Held, Careful;
    match step {
      case Begin(permit, _, _, _) =>
        if w.permits[permit].completed { CompletedStepKeepsHeld(c, w, step, permit); } else { StartStepKeepsHeld(c, w, step); }
      case Abandon(permit) =>
        if w.permits[permit].completed { CompletedStepKeepsHeld(c, w, step, permit); } else { CancelStepKeepsHeld(c, w, step); }
      case Abort(permit, _) =>
        if w.permits[permit].completed { CompletedStepKeepsHeld(c, w, step, permit); } else { CancelStepKeepsHeld(c, w, step); }
      case Finish(permit, _, _, _, _) =>
        if w.permits[permit].completed { CompletedStepKeepsHeld(c, w, step, permit); } else { FinishStepKeepsHeld(c, w, step); }
      case FinishWithReceipts(permit, _, _, _, _) =>
        if w.permits[permit].completed { CompletedStepKeepsHeld(c, w, step, permit); } else { ReceiptStepKeepsHeld(c, w, step); }
      case Admit(_, _, _, _, _, _) => CallerStepKeepsHeld(c, w, step);
      case Look(_, _, _, _, _, _) => CallerStepKeepsHeld(c, w, step);
      case Join(_, _, _) => CallerStepKeepsHeld(c, w, step);
      case _ => OtherStepKeepsHeld(c, w, step);
    }
  }

  lemma FreshIsListed()
    ensures Listed(FRESH)
  {
  }

  lemma {:induction false} RunKeepsHeld(c: Config, w: World, steps: seq<Label>)
    requires Runnable(c, w, steps) && Held(w) && Listed(w.gov)
    ensures Held(Run(c, w, steps)) && Listed(Run(c, w, steps).gov)
    decreases |steps|
  {
    hide Step, Held, Listed;
    if steps != [] {
      StepKeepsHeld(c, w, steps[0]);
      RunKeepsHeld(c, Step(c, w, steps[0]), steps[1..]);
    }
  }

  // The ids of everyone waiting, then the id of the permit in flight.
  function Holders(w: World): seq<Id> {
    seq(|w.gov.queue|, i requires 0 <= i < |w.gov.queue| => w.gov.queue[i].request.id)
    + (if w.permits != [] && !w.permits[|w.permits| - 1].completed then [w.permits[|w.permits| - 1].request.id] else [])
  }

  /** After every run no two holders share an id, and pruning at any instant
      leaves every holder's record in place. */
  lemma HoldersNeverShareAnId(c: Config, clock: Time, steps: seq<Label>, now: Time, choice: Choice)
    requires Runnable(c, Initially(clock), steps)
    ensures var w := Run(c, Initially(clock), steps);
            var holders := Holders(w);
            && (forall i, j :: 0 <= i < j < |holders| ==> holders[i] != holders[j])
            && (forall i :: 0 <= i < |holders| ==> holders[i] in w.gov.requestIDs && !w.gov.requestIDs[holders[i]].Completed?)
            && (forall i :: 0 <= i < |holders| ==> holders[i] in Prune(w.gov, now, choice).requestIDs)
  {
    hide Runnable, Run, Prune, Listed;
    FreshIsListed();
    RunKeepsHeld(c, Initially(clock), steps);
    PruneForgets(Run(c, Initially(clock), steps).gov, now, choice);
  }

  // Whether no state of the run retains more completed ids than the cap.
  predicate NeverOverfull(c: Config, w: World, steps: seq<Label>)
    requires Runnable(c, w, steps)
    decreases |steps|
  {
    |w.gov.completed| <= MAX_COMPLETED && (steps == [] || NeverOverfull(c, Step(c, w, steps[0]), steps[1..]))
  }

  lemma StepGrantsAtMostOne(c: Config, w: World, step: Label)
    requires Enabled(c, w, step)
    ensures var w' := Step(c, w, step);
            && |w.permits| <= |w'.permits| <= |w.permits| + 1
            && (|w'.permits| > |w.permits| ==> !w'.permits[|w.permits|].completed)
            && (forall i :: 0 <= i < |w.permits| ==> w'.permits[i].request == w.permits[i].request)
  {
    hide Check, Prune, Observe, Survey, RecordOutcome, Rejection, NewReceipts, Reconciled, RecordAll, OutcomesToRecord, CallOutcome, PolicyError,
         SettledClass, ConcludedResult, Conclude, Complete;
  }

  /** A request id that completed at `t` stays refused until a retention window
      later, in every run that never overfills the list: its record is still
      there and no permit granted on the way carries it. */
  lemma {:induction false} CompletedIdStaysRefused(c: Config, w: World, steps: seq<Label>, id: Id, t: Time)
    requires Held(w) && id in w.gov.requestIDs && w.gov.requestIDs[id] == Completed(t)
    requires Runnable(c, w, steps) && NeverOverfull(c, w, steps)
    requires Run(c, w, steps).clock < t + RETENTION
    ensures var w' := Run(c, w, steps);
            && id in w'.gov.requestIDs && w'.gov.requestIDs[id] == Completed(t)
            && |w.permits| <= |w'.permits|
            && (forall i :: 0 <= i < |w.permits| ==> w'.permits[i].request == w.permits[i].request)
            && (forall i :: |w.permits| <= i < |w'.permits| ==> w'.permits[i].request.id != id)
    decreases |steps|
  {
    hide Step, Waiting;
    if steps != [] {
      var w1 := Step(c, w, steps[0]);
      StepKeepsHeld(c, w, steps[0]);
      StepGrantsAtMostOne(c, w, steps[0]);
      ClockOnlyAdvances(c, w1, steps[1..]);
      StepSetsClock(c, w, steps[0]);
      CompletedIdStaysRefused(c, w1, steps[1..], id, t);
    }
  }

  /** After any run that leaves the list within its cap, pruning forgets a
      completed id exactly when a full retention window has passed. */
  lemma ForgottenExactlyWhenOld(c: Config, clock: Time, steps: seq<Label>, id: Id, t: Time, now: Time, choice: Choice)
    requires Runnable(c, Initially(clock), steps)
    requires var s := Run(c, Initially(clock), steps).gov;
             id in s.requestIDs && s.requestIDs[id] == Completed(t) && |s.completed| <= MAX_COMPLETED
    ensures id !in Prune(Run(c, Initially(clock), steps).gov, now, choice).requestIDs <==> t + RETENTION <= now
  {
    hide Runnable, Run, Prune, Listed;
    FreshIsListed();
    RunKeepsHeld(c, Initially(clock), steps);
    var s := Run(c, Initially(clock), steps).gov;
    PruneForgets(s, now, choice);
    PruneKeepsListed(s, now, choice);
  }
}
