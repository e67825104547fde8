/** The books of the attempt protocol: who was debited for what, through any
    number of crashes.

    This is the protocol with everything but its rows and debits left out. One
    process at a time runs it and may die between any two steps; the next one
    either boots on the saved projection and carries on with new work, or first
    recovers the rows left open. `CrashRuns` runs the governor itself under the
    same events and is proved to keep these books.
 */
module Bookkeeping {
  import opened Clock
  import opened Policy
  import opened CrashRecovery

  // `behind` says that recovery charged the store for a debit the governor in
  // memory does not know of.
  datatype Phase =
    | Down
    | Resuming(behind: bool)
    | Ready
    | Started(id: nat, aware: bool)
    | Intended(id: nat, aware: bool)
    | InCall(id: nat, aware: bool)
    | Ended(id: nat, aware: bool, status: Status, debited: nat)

  // `saved` and `held` count the debits of the store and of the governor in
  // memory. The rest is history: `reached` are the attempts whose call may have
  // run, `claimed` the debits their receipts justified, `added` those recovery
  // put in, and `unpaid` the attempts recorded with no debit at all.
  datatype Books = Books(
    rows: map<nat, Row>,
    saved: multiset<nat>,
    held: multiset<nat>,
    phase: Phase,
    next: nat,
    reached: set<nat>,
    claimed: multiset<nat>,
    added: multiset<nat>,
    unpaid: set<nat>)

  const BLANK := Books(map[], multiset{}, multiset{}, Down, 0, {}, multiset{}, multiset{}, {})

  // `Continue` carries the saved debits a second restore puts into memory
  // again.
  datatype Entry =
    | Boot
    | Resume
    | Settle(id: nat)
    | Continue(again: multiset<nat>)
    | Idle
    | Start(aware: bool)
    | Intend(row: Row)
    | Forgo
    | Call
    | Finish(debited: nat, status: Status)
    | Record
    | Lose
    | Crash

  predicate Possible(b: Books, e: Entry) {
    match e
    case Boot => b.phase.Down?
    case Resume => b.phase.Down?
    case Settle(id) => b.phase.Resuming? && id in b.rows && Open(b.rows[id])
    case Continue(again) => b.phase.Resuming? && !b.phase.behind && again <= b.saved
    case Idle => true
    case Start(_) => b.phase.Ready?
    case Intend(row) => b.phase.Started? && row.status.Prepared? && row.receiptAware == b.phase.aware
    case Forgo => b.phase.Started?
    case Call => b.phase.Intended?
    // A finish that debits nothing is uncertain.
    case Finish(debited, status) =>
      b.phase.InCall? && status in {Completed, Failed, Uncertain} && (b.phase.aware && debited == 0 ==> status.Uncertain?)
    case Record => b.phase.Ended?
    case Lose => b.phase.Ended?
    case Crash => true
  }

  function Next(b: Books, e: Entry): Books
    requires Possible(b, e)
  {
    match e
    case Boot => b.(phase := Ready, held := b.saved)
    case Resume => b.(phase := Resuming(false), held := b.saved)
    case Settle(id) =>
      var settled := b.(rows := b.rows[id := b.rows[id].(status := Reconciled)]);
      if Owes(b.rows[id]) then
        settled.(saved := b.saved + multiset{id}, added := b.added + multiset{id}, phase := Resuming(true))
      else settled
    case Continue(again) => b.(phase := Ready, held := b.held + again)
    case Idle => b
    // A plain start debits at once; a receipt-aware one leaves the debit to
    // its receipts.
    case Start(aware) =>
      b.(phase := Started(b.next, aware), next := b.next + 1, held := if aware then b.held else b.held + multiset{b.next})
    case Intend(row) => b.(rows := b.rows[b.phase.id := row], saved := b.held, phase := Intended(b.phase.id, b.phase.aware))
    case Forgo => b.(phase := Ready)
    case Call => b.(phase := InCall(b.phase.id, b.phase.aware), reached := b.reached + {b.phase.id})
    case Finish(debited, status) =>
      var paid := if b.phase.aware then debited else 0;
      b.(phase := Ended(b.phase.id, b.phase.aware, status, paid),
         held := b.held[b.phase.id := b.held[b.phase.id] + paid],
         claimed := b.claimed[b.phase.id := b.claimed[b.phase.id] + paid])
    case Record => Recorded(b)
    case Lose => b.(phase := Ready)
    case Crash => b.(phase := Down)
  }

  function Recorded(b: Books): Books
    requires b.phase.Ended?
  {
    var id := b.phase.id;
    b.(rows := if id in b.rows then b.rows[id := b.rows[id].(status := b.phase.status)] else b.rows,
       saved := b.held,
       phase := Ready,
       unpaid := if b.phase.aware && b.phase.debited == 0 then b.unpaid + {id} else b.unpaid)
  }

  // ----- What every step keeps -----

  predicate Working(phase: Phase) {
    phase.Started? || phase.Intended? || phase.InCall? || phase.Ended?
  }

  // Whether the governor in memory knows everything saved.
  predicate Informed(b: Books) {
    !b.phase.Down? && (b.phase.Resuming? ==> !b.phase.behind)
  }

  // One attempt's books.
  predicate Balanced(b: Books, id: nat) {
    && (id >= b.next ==> Untouched(b, id) && id !in b.rows)
    && (id in b.reached ==> id in b.rows)
    && (Informed(b) ==> b.saved[id] <= b.held[id])
    && (b.phase.Resuming? && Informed(b) ==> b.saved[id] == b.held[id])
    && (Working(b.phase) && b.phase.id == id ==> Current(b, id))
    && (id in b.rows ==> if b.rows[id].receiptAware then AwareBooks(b, id) else PlainBooks(b, id))
    && (id in b.added || id in b.unpaid ==> id in b.rows && b.rows[id].receiptAware)
  }

  predicate Untouched(b: Books, id: nat) {
    id !in b.saved && id !in b.held && id !in b.claimed && id !in b.added && id !in b.unpaid
  }

  // The attempt the process is working on.
  predicate Current(b: Books, id: nat)
    requires Working(b.phase)
  {
    var aware := b.phase.aware;
    && id < b.next && id !in b.added && id !in b.unpaid
    && (if b.phase.Started? then id !in b.rows && id !in b.saved && id !in b.claimed
        else id in b.rows && b.rows[id].status.Prepared? && b.rows[id].receiptAware == aware)
    && (if aware then b.held[id] == b.claimed[id] == (if b.phase.Ended? then b.phase.debited else 0) else b.held[id] == 1)
    && (b.phase.Ended? ==> b.phase.status in {Completed, Failed, Uncertain} && (aware && b.phase.debited == 0 ==> b.phase.status.Uncertain?))
  }

  // A plain attempt has a debit from the moment it has a row, for good.
  predicate PlainBooks(b: Books, id: nat) {
    b.saved[id] >= 1 && (!b.phase.Down? ==> b.held[id] >= 1)
  }

  // A receipt-aware attempt has a debit unless it is still open, or its
  // recorded outcome debited nothing.
  predicate AwareBooks(b: Books, id: nat)
    requires id in b.rows
  {
    var status := b.rows[id].status;
    && status in {Prepared, Completed, Failed, Uncertain, Reconciled}
    && b.added[id] <= 1 && (b.added[id] == 1 ==> status.Reconciled?)
    && (id in b.unpaid ==>
          && status in {Uncertain, Reconciled} && b.saved[id] == 0 && b.claimed[id] == 0 && b.added[id] == 0
          && (!b.phase.Down? ==> b.held[id] == 0))
    && (!status.Prepared? ==> b.saved[id] >= 1 || id in b.unpaid)
  }

  ghost predicate Sound(b: Books) {
    forall id: nat :: Balanced(b, id)
  }

  lemma LifecycleBalances(b: Books, e: Entry, id: nat)
    requires Balanced(b, id) && Possible(b, e) && (Working(b.phase) ==> Balanced(b, b.phase.id))
    requires e.Boot? || e.Resume? || e.Continue? || e.Crash? || e.Call? || e.Forgo? || e.Lose? || e.Idle?
    ensures Balanced(Next(b, e), id)
  {
  }

  lemma SettlingBalances(b: Books, e: Entry, id: nat)
    requires Balanced(b, id) && e.Settle? && Possible(b, e)
    ensures Balanced(Next(b, e), id)
  {
  }

  lemma StartBalances(b: Books, e: Entry, id: nat)
    requires Balanced(b, id) && e.Start? && Possible(b, e)
    ensures Balanced(Next(b, e), id)
  {
  }

  lemma IntentBalances(b: Books, e: Entry, id: nat)
    requires Balanced(b, id) && e.Intend? && Possible(b, e) && Balanced(b, b.phase.id)
    ensures Balanced(Next(b, e), id)
  {
  }

  lemma FinishBalances(b: Books, e: Entry, id: nat)
    requires Balanced(b, id) && e.Finish? && Possible(b, e) && Balanced(b, b.phase.id)
    ensures Balanced(Next(b, e), id)
  {
  }

  lemma RecordBalances(b: Books, e: Entry, id: nat)
    requires Balanced(b, id) && e.Record? && Possible(b, e) && Balanced(b, b.phase.id)
    ensures Balanced(Next(b, e), id)
  {
  }

  /** Every step keeps the books of every attempt. */
  lemma StepIsSound(b: Books, e: Entry)
    requires Sound(b) && Possible(b, e)
    ensures Sound(Next(b, e))
  {
    hide Balanced, Next;
    forall id: nat
      ensures Balanced(Next(b, e), id)
    {
      match e {
        case Settle(_) => SettlingBalances(b, e, id);
        case Start(_) => StartBalances(b, e, id);
        case Intend(_) => IntentBalances(b, e, id);
        case Finish(_, _) => FinishBalances(b, e, id);
        case Record => RecordBalances(b, e, id);
        case _ => LifecycleBalances(b, e, id);
      }
    }
  }

  // Nobody is overcharged: a plain attempt has one debit, a receipt-aware one
  // no more than its receipts justified and one conservative debit.
  predicate Fair(b: Books, id: nat) {
    var most := if id in b.rows && b.rows[id].receiptAware then b.claimed[id] + b.added[id] else 1;
    id in b.rows ==> b.saved[id] <= most && (!b.phase.Down? ==> b.held[id] <= most)
  }

  ghost predicate AllFair(b: Books) {
    forall id: nat :: Fair(b, id)
  }

  lemma StepIsFairTo(b: Books, e: Entry, id: nat)
    requires Balanced(b, id) && Possible(b, e) && Fair(b, id) && (Working(b.phase) ==> Balanced(b, b.phase.id))
    requires e.Continue? ==> e.again == multiset{}
    ensures Fair(Next(b, e), id)
  {
    hide AwareBooks, PlainBooks;
  }

  /** No step overcharges anyone, as long as no continuation restores saved
      debits a second time. */
  lemma StepIsFair(b: Books, e: Entry)
    requires Sound(b) && Possible(b, e) && AllFair(b) && (e.Continue? ==> e.again == multiset{})
    ensures AllFair(Next(b, e))
  {
    hide Balanced, Next, Fair;
    forall id: nat
      ensures Fair(Next(b, e), id)
    {
      StepIsFairTo(b, e, id);
    }
  }

  lemma BlankIsSound()
    ensures Sound(BLANK) && AllFair(BLANK)
  {
  }

  // ----- What sound books say -----

  /** A plain attempt that may have reached the upstream has its durable debit;
      a receipt-aware one has a durable debit or an open row that recovery will
      settle, or its recorded outcome debited nothing. */
  lemma ReachedIsOnTheBooks(b: Books, id: nat)
    requires Sound(b) && id in b.reached
    ensures id in b.rows
    ensures b.saved[id] >= 1 || (b.rows[id].receiptAware && (b.rows[id].status.Prepared? || id in b.unpaid))
  {
    assert Balanced(b, id);
  }

  lemma SettledIsPaid(b: Books, id: nat)
    requires Sound(b) && id in b.reached && (id in b.rows ==> !Open(b.rows[id]))
    ensures b.saved[id] >= 1 <==> id !in b.unpaid
  {
    assert Balanced(b, id);
  }

  lemma NothingIsOvercharged(b: Books, id: nat)
    requires Sound(b) && AllFair(b)
    ensures b.added[id] <= 1
    ensures id in b.rows ==>
      if b.rows[id].receiptAware then b.saved[id] <= b.claimed[id] + b.added[id] else b.added[id] == 0 && b.saved[id] == 1
  {
    assert Balanced(b, id) && Fair(b, id);
  }
}
