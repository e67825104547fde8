/** Bounded retention: which request records, receipt identities and task
    counters survive a prune.

    Entries age out; past a cap the oldest go too. Where several entries are
    equally old the source evicts whichever its map iteration meets first, so
    the evicted keys are a `Choice` made outside, constrained to be oldest
    first and no more than the cap requires.
 */
module Retention {
  import opened Clock
  import opened Policy

  const RETENTION: Duration := THREE_HOURS
  const MAX_COMPLETED := 4096
  const MAX_ATTEMPT_IDS := 4096
  const MAX_TASKS := 1024

  datatype Task = Task(attempts: int, retries: int, lastTouched: Time)

  datatype Record = Pending | Active | Completed(at: Time)

  datatype Completion = Completion(id: Id, at: Time)

  datatype Choice = Choice(tasks: set<Id>, attempts: set<Id>)

  // ----- Request records -----

  function Scan(entries: seq<Completion>, ids: map<Id, Record>, cutoff: Time): (seq<Completion>, map<Id, Record>) {
    if entries == [] then ([], ids)
    else
      var entry := entries[0];
      if entry.id !in ids || ids[entry.id] != Completed(entry.at) then Scan(entries[1..], ids, cutoff)
      else if entry.at <= cutoff then Scan(entries[1..], ids - {entry.id}, cutoff)
      else
        var (kept, left) := Scan(entries[1..], ids, cutoff);
        ([entry] + kept, left)
  }

  function Trim(entries: seq<Completion>, ids: map<Id, Record>): (seq<Completion>, map<Id, Record>)
    decreases |entries|
  {
    if |entries| <= MAX_COMPLETED then (entries, ids)
    else
      var entry := entries[0];
      Trim(entries[1..], if entry.id in ids && ids[entry.id] == Completed(entry.at) then ids - {entry.id} else ids)
  }

  function PruneRequests(entries: seq<Completion>, ids: map<Id, Record>, now: Time): (seq<Completion>, map<Id, Record>) {
    var (kept, left) := Scan(entries, ids, now - RETENTION);
    Trim(kept, left)
  }

  lemma {:induction false} ScanOnlyForgets(entries: seq<Completion>, ids: map<Id, Record>, cutoff: Time)
    ensures var (kept, left) := Scan(entries, ids, cutoff);
            && |kept| <= |entries|
            && (forall id :: id in left ==> id in ids && left[id] == ids[id])
            && (forall id :: id in ids && id !in left ==> ids[id].Completed? && ids[id].at <= cutoff)
  {
    if entries != [] {
      var entry := entries[0];
      ScanOnlyForgets(entries[1..], ids, cutoff);
      ScanOnlyForgets(entries[1..], ids - {entry.id}, cutoff);
    }
  }

  lemma {:induction false} TrimOnlyForgets(entries: seq<Completion>, ids: map<Id, Record>)
    ensures var (kept, left) := Trim(entries, ids);
            && |kept| <= MAX_COMPLETED
            && (forall id :: id in left ==> id in ids && left[id] == ids[id])
            && (forall id :: id in ids && id !in left ==> ids[id].Completed?)
    decreases |entries|
  {
    if |entries| > MAX_COMPLETED {
      var entry := entries[0];
      TrimOnlyForgets(entries[1..], if entry.id in ids && ids[entry.id] == Completed(entry.at) then ids - {entry.id} else ids);
    }
  }

  /** A prune only ever forgets completed requests, and, while no more than
      the cap are retained, only those completed a full retention window ago.
      A pending or active request is never forgotten. */
  lemma PruneForgetsOnlyCompleted(entries: seq<Completion>, ids: map<Id, Record>, now: Time)
    ensures var (kept, left) := PruneRequests(entries, ids, now);
            && (forall id :: id in left ==> id in ids && left[id] == ids[id])
            && (forall id :: id in ids && id !in left ==> ids[id].Completed?)
            && (|entries| <= MAX_COMPLETED ==>
                  forall id :: id in ids && id !in left ==> ids[id].at + RETENTION <= now)
  {
    ScanOnlyForgets(entries, ids, now - RETENTION);
    var (kept, left) := Scan(entries, ids, now - RETENTION);
    TrimOnlyForgets(kept, left);
  }

  // ----- Oldest-first eviction -----

  // `evicted` is what removing the oldest removable keys one at a time, until
  // at most `cap` remain or nothing removable is left, may remove from `ages`.
  ghost predicate OldestFirst(ages: map<Id, Time>, removable: set<Id>, cap: nat, evicted: set<Id>) {
    && evicted <= removable <= ages.Keys
    && |evicted| == Min(Max(0, |ages| - cap), |removable|)
    && (forall gone, kept :: gone in evicted && kept in removable - evicted ==> ages[gone] <= ages[kept])
  }

  lemma SubsetSize(a: set<Id>, b: set<Id>)
    requires a <= b
    ensures |a| <= |b|
  {
    assert b == a + (b - a);
  }

  function Ages(tasks: map<Id, Task>): map<Id, Time> {
    map id | id in tasks :: tasks[id].lastTouched
  }

  function YoungTasks(tasks: map<Id, Task>, protected: set<Id>, now: Time): map<Id, Task> {
    map id | id in tasks && (id in protected || tasks[id].lastTouched > now - RETENTION) :: tasks[id]
  }

  function YoungAttempts(attempts: map<Id, Time>, now: Time): map<Id, Time> {
    map id | id in attempts && attempts[id] >= now - RETENTION :: attempts[id]
  }

  ghost predicate ChoiceFits(tasks: map<Id, Task>, attempts: map<Id, Time>, protected: set<Id>, now: Time, choice: Choice) {
    TasksFit(tasks, protected, now, choice.tasks) && AttemptsFit(attempts, now, choice.attempts)
  }

  ghost predicate TasksFit(tasks: map<Id, Task>, protected: set<Id>, now: Time, evicted: set<Id>) {
    var young := YoungTasks(tasks, protected, now);
    OldestFirst(Ages(young), young.Keys - protected, MAX_TASKS, evicted)
  }

  ghost predicate AttemptsFit(attempts: map<Id, Time>, now: Time, evicted: set<Id>) {
    OldestFirst(YoungAttempts(attempts, now), YoungAttempts(attempts, now).Keys, MAX_ATTEMPT_IDS, evicted)
  }
}
