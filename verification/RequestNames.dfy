/** The request ids of a run of the agent loop: every turn and every retry of it
    asks under a name of its own, so the governor never takes one attempt of
    the run for a duplicate of another.
 */
module RequestNames {
  import opened Policy
  import opened AgentExecutor

  // The id of the `retry`-th retry of the call of a turn, or of the call itself;
  // `owner` is the task, or the task and the work unit.
  function NameOf(owner: Id, turn: nat, retry: nat): Id {
    var request := Request(owner, owner + "-" + Padded(turn), false);
    if retry == 0 then request.id else RetryOf(request, retry).id
  }

  predicate Digits(s: string) {
    forall i :: 0 <= i < |s| ==> '0' <= s[i] <= '9'
  }

  // What a string of digits reads as.
  function Value(s: string): int {
    if s == [] then 0 else Value(s[..|s| - 1]) * 10 + (s[|s| - 1] as int - '0' as int)
  }

  lemma ValueOf(s: string, digit: char)
    ensures Value(s + [digit]) == Value(s) * 10 + (digit as int - '0' as int)
  {
    assert (s + [digit])[..|s|] == s;
  }

  lemma DigitReads(n: nat)
    requires n < 10
    ensures var digit := "0123456789"[n]; '0' <= digit <= '9' && digit as int - '0' as int == n
  {
  }

  lemma {:induction false} DecimalReads(n: nat)
    ensures Digits(Decimal(n)) && Value(Decimal(n)) == n
  {
    hide Value;
    var digit := "0123456789"[n % 10];
    DigitReads(n % 10);
    if n < 10 {
      assert Decimal(n) == "" + [digit];
      ValueOf("", digit);
      ZerosAre();
    } else {
      DecimalReads(n / 10);
      ValueOf(Decimal(n / 10), digit);
    }
  }

  lemma {:induction false} ZerosReadAsNothing(zeros: string, s: string)
    requires Value(zeros) == 0
    ensures Value(zeros + s) == Value(s)
  {
    if s == [] {
      assert zeros + s == zeros;
    } else {
      var last := |s| - 1;
      ZerosReadAsNothing(zeros, s[..last]);
      assert (zeros + s[..last]) + [s[last]] == zeros + s;
      ValueOf(zeros + s[..last], s[last]);
    }
  }

  lemma ZerosAre()
    ensures Value("") == 0 && Value("0") == 0 && Value("00") == 0 && Value("000") == 0
  {
    ValueOf("", '0');
    ValueOf("0", '0');
    ValueOf("00", '0');
    assert "0" == "" + ['0'] && "00" == "0" + ['0'] && "000" == "00" + ['0'];
  }

  lemma PaddedReads(n: nat)
    ensures Digits(Padded(n)) && Value(Padded(n)) == n
  {
    DecimalReads(n);
    ZerosAre();
    ZerosReadAsNothing(if n < 10 then "000" else if n < 100 then "00" else if n < 1000 then "0" else "", Decimal(n));
  }

  predicate DashFree(s: string) {
    '-' !in s
  }

  // A string splits at its last dash in one way only.
  lemma LastDash(a: string, x: string, b: string, y: string)
    requires DashFree(x) && DashFree(y) && a + "-" + x == b + "-" + y
    ensures a == b && x == y
  {
    NoLonger(a, x, b, y);
    NoLonger(b, y, a, x);
    var whole := a + "-" + x;
    assert a == whole[..|a|] && b == whole[..|b|] && x == whole[|a| + 1..] && y == whole[|b| + 1..];
  }

  lemma NoLonger(a: string, x: string, b: string, y: string)
    requires DashFree(x) && a + "-" + x == b + "-" + y
    ensures |b| <= |a|
  {
    var whole := a + "-" + x;
    assert forall k :: |a| < k < |whole| ==> whole[k] == x[k - |a| - 1];
    assert whole[|b|] == '-';
  }

  lemma SameDigits(n: nat, m: nat)
    ensures DashFree(Padded(n)) && DashFree("r" + Decimal(n)) && Padded(n) != "r" + Decimal(m)
    ensures Padded(n) == Padded(m) ==> n == m
    ensures "r" + Decimal(n) == "r" + Decimal(m) ==> n == m
  {
    hide Decimal, Padded, Value;
    PaddedReads(n);
    PaddedReads(m);
    DecimalReads(n);
    DecimalReads(m);
    assert ("r" + Decimal(n))[1..] == Decimal(n) && ("r" + Decimal(m))[1..] == Decimal(m);
    assert ("r" + Decimal(m))[0] == 'r';
  }

  lemma NameIs(owner: Id, turn: nat, retry: nat)
    ensures NameOf(owner, turn, retry)
         == if retry == 0 then owner + "-" + Padded(turn) else (owner + "-" + Padded(turn)) + "-" + ("r" + Decimal(retry))
  {
    hide Padded, Decimal;
    assert "-" + ("r" + Decimal(retry)) == "-r" + Decimal(retry);
  }

  /** No two calls share a request id, retries included, however many turns and
      retries there are and whoever they are made for. */
  lemma NamesNeverCollide(owner: Id, turn: nat, retry: nat, owner': Id, turn': nat, retry': nat)
    requires NameOf(owner, turn, retry) == NameOf(owner', turn', retry')
    ensures owner == owner' && turn == turn' && retry == retry'
  {
    hide NameOf, Padded, Decimal, DashFree;
    NameIs(owner, turn, retry);
    NameIs(owner', turn', retry');
    SameDigits(turn, turn');
    SameDigits(turn', turn);
    SameDigits(retry, retry');
    SameDigits(retry', retry);
    SameDigits(turn, retry');
    SameDigits(turn', retry);
    var call, call' := owner + "-" + Padded(turn), owner' + "-" + Padded(turn');
    if retry == 0 && retry' == 0 {
      LastDash(owner, Padded(turn), owner', Padded(turn'));
    } else if retry == 0 {
      LastDash(owner, Padded(turn), call', "r" + Decimal(retry'));
    } else if retry' == 0 {
      LastDash(call, "r" + Decimal(retry), owner', Padded(turn'));
    } else {
      LastDash(call, "r" + Decimal(retry), call', "r" + Decimal(retry'));
      LastDash(owner, Padded(turn), owner', Padded(turn'));
    }
  }
}
