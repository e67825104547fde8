/** Counting the instants that fall in a sliding window. */
module Windows {
  import opened Clock

  // The positions of the instants that lie in the window ending at `t`.
  function Within(instants: seq<Time>, window: Duration, t: Time): set<nat> {
    set i | 0 <= i < |instants| && t - window < instants[i] <= t
  }

  predicate Ascending(instants: seq<Time>) {
    forall i, j :: 0 <= i < j < |instants| ==> instants[i] <= instants[j]
  }

  lemma {:induction false} BoundedSetSize(s: set<nat>, low: nat, size: nat)
    requires forall i :: i in s ==> low <= i < low + size
    ensures |s| <= size
    decreases size
  {
    if size > 0 {
      BoundedSetSize(s - {low + size - 1}, low, size - 1);
    } else {
      assert s == {};
    }
  }

  lemma {:induction false} CoveringSetSize(s: set<nat>, low: nat, size: nat)
    requires forall i :: low <= i < low + size ==> i in s
    ensures |s| >= size
    decreases size
  {
    if size > 0 {
      CoveringSetSize(s - {low + size - 1}, low, size - 1);
    }
  }

  lemma {:induction false} EarliestOf(s: set<nat>) returns (first: nat)
    requires s != {}
    ensures first in s && forall i :: i in s ==> first <= i
  {
    var any :| any in s;
    if s == {any} {
      first := any;
    } else {
      var rest := EarliestOf(s - {any});
      first := if any < rest then any else rest;
      assert s == (s - {any}) + {any};
    }
  }
}
