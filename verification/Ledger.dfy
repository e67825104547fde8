/** The rolling usage ledger: an append-only list of debits with a head index
    that moves past expired entries and a compaction that drops them.

    `RollingLedger` is the structure the governor mutates. The functions above
    it say what it computes, and the lemmas say why that is enough: discarding
    expired entries never changes a count anyone can still ask for, and the
    retry time offered to a blocked caller is the first instant that helps.
 */
module Ledger {
  import opened Clock

  datatype Event = Event(at: Time, task: string)

  function CountAfter(events: seq<Event>, cutoff: Time): (n: nat)
    ensures n <= |events|
  {
    if events == [] then 0
    else (if events[0].at > cutoff then 1 else 0) + CountAfter(events[1..], cutoff)
  }

  function FirstAfter(events: seq<Event>, cutoff: Time): (i: nat)
    ensures i <= |events|
    ensures i < |events| ==> events[i].at > cutoff
    ensures forall j :: 0 <= j < i ==> events[j].at <= cutoff
  {
    if events == [] || events[0].at > cutoff then 0 else 1 + FirstAfter(events[1..], cutoff)
  }

  // The first entry after `cutoff` is the only one that has the entries before
  // it behind the cutoff.
  lemma FirstAfterIs(events: seq<Event>, cutoff: Time, i: nat)
    requires i <= |events| && (i < |events| ==> events[i].at > cutoff)
    requires forall j :: 0 <= j < i ==> events[j].at <= cutoff
    ensures FirstAfter(events, cutoff) == i
  {
    hide FirstAfter;
  }

  // The part of a list that starts at its first entry after `cutoff`.
  function DropExpired(events: seq<Event>, cutoff: Time): seq<Event> {
    events[FirstAfter(events, cutoff)..]
  }

  function Used(events: seq<Event>, now: Time, window: Duration): nat {
    CountAfter(events, now - window)
  }

  // The instant at which a caller blocked by `ceiling` should look again;
  // ZERO when the ceiling does not block.
  function NextFree(events: seq<Event>, now: Time, window: Duration, ceiling: int): Time {
    if CountAfter(events, now - window) < ceiling then ZERO
    else
      var i := FirstAfter(events, now - window);
      if i < |events| then events[i].at + window else ZERO
  }

  predicate Sorted(events: seq<Event>) {
    forall i, j :: 0 <= i < j < |events| ==> events[i].at <= events[j].at
  }

  class RollingLedger {
    var events: seq<Event>
    var head: nat

    ghost predicate Valid()
      reads this
    {
      head <= |events|
    }

    ghost function Live(): seq<Event>
      reads this
      requires Valid()
    {
      events[head..]
    }

    constructor ()
      ensures Valid() && Live() == []
    {
      events, head := [], 0;
    }

    method Add(at: Time, task: string)
      requires Valid()
      modifies this
      ensures Valid() && Live() == old(Live()) + [Event(at, task)]
    {
      events := events + [Event(at, task)];
    }

    method Expire(now: Time, maxWindow: Duration)
      requires Valid()
      modifies this
      ensures Valid() && Live() == DropExpired(old(Live()), now - maxWindow)
    {
      var cutoff := now - maxWindow;
      hide FirstAfter;
      ghost var live := Live();
      while head < |events| && events[head].at <= cutoff
        invariant old(head) <= head <= |events| && events == old(events)
        invariant forall j :: 0 <= j < head - old(head) ==> live[j].at <= cutoff
      {
        assert live[head - old(head)] == events[head];
        head := head + 1;
      }
      FirstAfterIs(live, cutoff, head - old(head));
      Compact();
    }

    // Drops the expired prefix once it is large.
    method Compact()
      requires Valid()
      modifies this
      ensures Valid() && Live() == old(Live())
    {
      if head > 0 && (head >= 256 || head * 2 >= |events|) {
        events := events[head..];
        head := 0;
      }
    }

    method Count(now: Time, window: Duration) returns (count: nat)
      requires Valid()
      ensures count == CountAfter(Live(), now - window)
    {
      var cutoff := now - window;
      count := 0;
      var i := head;
      while i < |events|
        invariant head <= i <= |events|
        invariant count + CountAfter(events[i..], cutoff) == CountAfter(Live(), cutoff)
      {
        assert events[i..][1..] == events[i + 1..];
        if events[i].at > cutoff {
          count := count + 1;
        }
        i := i + 1;
      }
    }

    method Next(now: Time, window: Duration, ceiling: int) returns (next: Time)
      requires Valid()
      ensures next == NextFree(Live(), now, window, ceiling)
    {
      var count := Count(now, window);
      if count < ceiling {
        return ZERO;
      }
      hide FirstAfter, CountAfter;
      var cutoff := now - window;
      var i := head;
      while i < |events|
        invariant head <= i <= |events|
        invariant forall j :: 0 <= j < i - head ==> Live()[j].at <= cutoff
      {
        if events[i].at > cutoff {
          FirstAfterIs(Live(), cutoff, i - head);
          return events[i].at + window;
        }
        i := i + 1;
      }
      FirstAfterIs(Live(), cutoff, i - head);
      return ZERO;
    }

    method CopyEvents() returns (copy: seq<Event>)
      requires Valid()
      ensures copy == Live()
    {
      copy := events[head..];
    }
  }

  // ----- Discarding expired entries is invisible -----

  datatype Action = Add(event: Event) | Expire(now: Time)

  function Apply(live: seq<Event>, action: Action, retention: Duration): seq<Event> {
    match action
    case Add(event) => live + [event]
    case Expire(now) => DropExpired(live, now - retention)
  }

  // The live entries after `actions`, expiring everything older than
  // `retention` each time.
  function Replay(actions: seq<Action>, retention: Duration): seq<Event> {
    if actions == [] then [] else Apply(Replay(actions[..|actions| - 1], retention), actions[|actions| - 1], retention)
  }

  // Everything ever added.
  function History(actions: seq<Action>): seq<Event> {
    if actions == [] then []
    else
      var last := actions[|actions| - 1];
      History(actions[..|actions| - 1]) + (if last.Add? then [last.event] else [])
  }

  predicate ExpiredBy(actions: seq<Action>, now: Time) {
    forall i :: 0 <= i < |actions| && actions[i].Expire? ==> actions[i].now <= now
  }

  lemma {:induction false} CountAfterConcat(a: seq<Event>, b: seq<Event>, cutoff: Time)
    ensures CountAfter(a + b, cutoff) == CountAfter(a, cutoff) + CountAfter(b, cutoff)
  {
    if a == [] {
      assert a + b == b;
    } else {
      assert (a + b)[1..] == a[1..] + b;
      CountAfterConcat(a[1..], b, cutoff);
    }
  }

  lemma {:induction false} CountAfterNone(events: seq<Event>, cutoff: Time)
    requires forall i :: 0 <= i < |events| ==> events[i].at <= cutoff
    ensures CountAfter(events, cutoff) == 0
  {
    if events != [] {
      CountAfterNone(events[1..], cutoff);
    }
  }

  lemma CountAfterDropExpired(events: seq<Event>, dropped: Time, cutoff: Time)
    requires dropped <= cutoff
    ensures CountAfter(DropExpired(events, dropped), cutoff) == CountAfter(events, cutoff)
  {
    var first := FirstAfter(events, dropped);
    assert events == events[..first] + events[first..];
    CountAfterConcat(events[..first], events[first..], cutoff);
    CountAfterNone(events[..first], cutoff);
  }

  lemma ApplyKeepsCounts(live: seq<Event>, action: Action, retention: Duration, cutoff: Time)
    requires action.Expire? ==> action.now - retention <= cutoff
    ensures CountAfter(Apply(live, action, retention), cutoff)
         == CountAfter(live, cutoff) + CountAfter(if action.Add? then [action.event] else [], cutoff)
  {
    match action
    case Add(event) => CountAfterConcat(live, [event], cutoff);
    case Expire(now) => CountAfterDropExpired(live, now - retention, cutoff);
  }

  /** For every interleaving of additions (at whatever instants) and expiries,
      a count over a window no longer than the retention sees exactly the
      entries ever added, as long as nothing was expired at a later instant. */
  lemma {:induction false} CountsMatchHistory(actions: seq<Action>, retention: Duration, now: Time, window: Duration)
    requires ExpiredBy(actions, now) && window <= retention
    ensures CountAfter(Replay(actions, retention), now - window) == CountAfter(History(actions), now - window)
  {
    if actions != [] {
      var before, last := actions[..|actions| - 1], actions[|actions| - 1];
      var cutoff := now - window;
      CountsMatchHistory(before, retention, now, window);
      ApplyKeepsCounts(Replay(before, retention), last, retention, cutoff);
      CountAfterConcat(History(before), if last.Add? then [last.event] else [], cutoff);
    }
  }

  // ----- The retry time is exact -----

  // Of the entries after `floor`, the first is always among the earliest, even
  // where the list is not in time order.
  ghost predicate EarliestFirst(events: seq<Event>, floor: Time) {
    forall i, j :: Inverted(events, floor, i, j) ==> Preceded(events, i, j)
  }

  predicate Inverted(events: seq<Event>, floor: Time, i: int, j: int) {
    0 <= i < j < |events| && floor < events[j].at < events[i].at
  }

  // Some entry before `i` is no earlier than the one at `j`.
  predicate Preceded(events: seq<Event>, i: int, j: int) {
    0 <= i < j < |events| && exists h :: 0 <= h < i && events[j].at <= events[h].at
  }

  // A later cutoff counts fewer entries, by those the two cutoffs part.
  lemma {:induction false} CountAfterMoves(events: seq<Event>, early: Time, late: Time)
    requires early <= late
    ensures CountAfter(events, late) <= CountAfter(events, early)
    ensures (forall i :: 0 <= i < |events| ==> events[i].at <= early || late < events[i].at) ==> CountAfter(events, late) == CountAfter(events, early)
    ensures (exists i :: 0 <= i < |events| && early < events[i].at <= late) ==> CountAfter(events, late) < CountAfter(events, early)
  {
    if events != [] {
      CountAfterMoves(events[1..], early, late);
      assert forall i :: 0 < i < |events| ==> events[i] == events[1..][i - 1];
    }
  }

  /** On a blocked ledger whose earliest counted entry comes first, the returned
      instant is in the future, every earlier instant is blocked by the same
      entries, and the instant itself has strictly fewer: a ledger in time
      order holding exactly the ceiling is unblocked there and not before. */
  lemma NextFreeIsExact(events: seq<Event>, now: Time, window: Duration, ceiling: int)
    requires EarliestFirst(events, now - window) && 0 < ceiling <= Used(events, now, window)
    ensures var next := NextFree(events, now, window, ceiling);
            && next > now
            && (forall t :: now <= t < next ==> Used(events, t, window) == Used(events, now, window))
            && Used(events, next, window) < Used(events, now, window)
  {
    hide CountAfter, EarliestFirst, FirstAfter;
    var i := FirstAfter(events, now - window);
    if i == |events| {
      CountAfterNone(events, now - window);
    } else {
      var next := events[i].at + window;
      FirstIsEarliest(events, now - window);
      forall t | now <= t < next
        ensures Used(events, t, window) == Used(events, now, window)
      {
        CountAfterMoves(events, now - window, t - window);
      }
      CountAfterMoves(events, now - window, next - window);
    }
  }

  lemma FirstIsEarliest(events: seq<Event>, cutoff: Time)
    requires EarliestFirst(events, cutoff) && FirstAfter(events, cutoff) < |events|
    ensures forall k :: 0 <= k < |events| && events[k].at > cutoff ==> events[FirstAfter(events, cutoff)].at <= events[k].at
  {
    hide FirstAfter;
    var i := FirstAfter(events, cutoff);
    forall k | 0 <= k < |events| && events[k].at > cutoff
      ensures events[i].at <= events[k].at
    {
      assert Inverted(events, cutoff, i, k) <==> i < k && events[k].at < events[i].at;
    }
  }
}
