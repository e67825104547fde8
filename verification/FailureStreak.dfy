/** The consecutive-failure guard: the counter the live loop keeps going forward
    and the one recovery recomputes going backward over what was persisted.
 */
module FailureStreak {
  import opened Policy

  datatype Tool = RunRecipe | OtherTool

  // What the loop sees of one executed action. A recipe observation carries
  // its process evidence.
  datatype Observation = Observation(tool: Tool, success: bool, exitCode: Option<int>)

  datatype Status = Completed | Failed | Open

  datatype Attempt = Attempt(status: Status, tool: Tool, evidence: string)

  datatype Snapshot = Snapshot(attempts: seq<Attempt>, exitCodes: map<string, Option<int>>)

  // ----- Forward, live -----

  predicate CountedForGuard(o: Observation) {
    !o.success || (o.tool.RunRecipe? && o.exitCode.Some? && o.exitCode.value != 0)
  }

  function Counter(start: nat, history: seq<Observation>): nat {
    if history == [] then start
    else if CountedForGuard(history[|history| - 1]) then Counter(start, history[..|history| - 1]) + 1
    else 0
  }

  // One turn of the live guard: the new counter, and whether the run stops.
  method Guard(counter: nat, o: Observation, limit: nat) returns (next: nat, stop: bool)
    ensures next == Counter(counter, [o])
    ensures stop <==> CountedForGuard(o) && next > limit
  {
    assert [o][..0] == [];
    if CountedForGuard(o) {
      next := counter + 1;
      stop := next > limit;
    } else {
      next, stop := 0, false;
    }
  }

  // ----- Backward, recovered -----

  predicate CountedAsFailure(a: Attempt, exitCodes: map<string, Option<int>>) {
    a.status.Failed? ||
    (a.status.Completed? && a.tool.RunRecipe? && a.evidence in exitCodes
     && exitCodes[a.evidence].Some? && exitCodes[a.evidence].value != 0)
  }

  /** The number of failing attempts at the end of the persisted list: they all
      count as failures, and the one before them, if any, does not. */
  method TrailingToolFailures(s: Snapshot) returns (count: nat)
    ensures count <= |s.attempts|
    ensures forall i :: |s.attempts| - count <= i < |s.attempts| ==> CountedAsFailure(s.attempts[i], s.exitCodes)
    ensures count < |s.attempts| ==> !CountedAsFailure(s.attempts[|s.attempts| - 1 - count], s.exitCodes)
  {
    count := 0;
    var index := |s.attempts| - 1;
    while index >= 0
      invariant -1 <= index < |s.attempts| && count == |s.attempts| - 1 - index
      invariant forall i :: index < i < |s.attempts| ==> CountedAsFailure(s.attempts[i], s.exitCodes)
    {
      if !CountedAsFailure(s.attempts[index], s.exitCodes) {
        return;
      }
      count := count + 1;
      index := index - 1;
    }
  }

  predicate IsTrailing(s: Snapshot, count: nat) {
    && count <= |s.attempts|
    && (forall i :: |s.attempts| - count <= i < |s.attempts| ==> CountedAsFailure(s.attempts[i], s.exitCodes))
    && (count < |s.attempts| ==> !CountedAsFailure(s.attempts[|s.attempts| - 1 - count], s.exitCodes))
  }

  // ----- What is persisted of a history -----

  // Attempt `i` of the snapshot records observation `i`: failed or completed,
  // and its exit code under an evidence id of its own.
  predicate Records(s: Snapshot, history: seq<Observation>) {
    && |s.attempts| == |history|
    && forall i :: 0 <= i < |history| ==>
         && s.attempts[i].tool == history[i].tool
         && s.attempts[i].status == (if history[i].success then Completed else Failed)
         && (history[i].success && history[i].tool.RunRecipe? ==>
               s.attempts[i].evidence in s.exitCodes && s.exitCodes[s.attempts[i].evidence] == history[i].exitCode)
  }

  lemma SameVerdict(s: Snapshot, history: seq<Observation>, i: nat)
    requires Records(s, history) && i < |history|
    ensures CountedAsFailure(s.attempts[i], s.exitCodes) <==> CountedForGuard(history[i])
  {
  }

  lemma {:induction false} CounterIsTrailing(s: Snapshot, history: seq<Observation>, count: nat)
    requires Records(s, history) && IsTrailing(s, count)
    ensures Counter(0, history) == count
    decreases |history|
  {
    if history != [] {
      var last := |history| - 1;
      SameVerdict(s, history, last);
      if count > 0 {
        var before := s.(attempts := s.attempts[..last]);
        assert forall i :: 0 <= i < last ==> before.attempts[i] == s.attempts[i];
        CounterIsTrailing(before, history[..last], count - 1);
      }
    }
  }

  /** For every history of completed and failed attempts, non-zero recipe exits
      included, the counter recovery recomputes is the counter the live loop
      had. */
  method RecoveredStreak(s: Snapshot, ghost history: seq<Observation>) returns (count: nat)
    requires Records(s, history)
    ensures count == Counter(0, history)
  {
    count := TrailingToolFailures(s);
    CounterIsTrailing(s, history, count);
  }

  /** So an interruption does not show: a resumed loop that starts from the
      recovered counter ends with the one an uninterrupted loop would have. */
  lemma {:induction false} ResumedCounter(history: seq<Observation>, more: seq<Observation>)
    ensures Counter(Counter(0, history), more) == Counter(0, history + more)
  {
    if more == [] {
      assert history + more == history;
    } else {
      var last := |more| - 1;
      assert (history + more)[..|history| + last] == history + more[..last];
      ResumedCounter(history, more[..last]);
    }
  }

  // ----- Verification decisions -----

  datatype Decision = DecidedFailed | DecidedOther

  function VerificationCounter(decisions: seq<Decision>): nat {
    if decisions == [] then 0
    else if decisions[|decisions| - 1].DecidedFailed? then VerificationCounter(decisions[..|decisions| - 1]) + 1
    else 0
  }

  method TrailingVerificationFailures(decisions: seq<Decision>) returns (count: nat)
    ensures count == VerificationCounter(decisions)
  {
    count := 0;
    var index := |decisions|;
    assert decisions[..index] == decisions;
    while index > 0
      invariant 0 <= index <= |decisions|
      invariant count + VerificationCounter(decisions[..index]) == VerificationCounter(decisions)
    {
      assert decisions[..index][..index - 1] == decisions[..index - 1];
      if !decisions[index - 1].DecidedFailed? {
        return;
      }
      count := count + 1;
      index := index - 1;
    }
  }
}
