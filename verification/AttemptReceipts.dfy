/** Authoritative attempt receipts: what an upstream gateway says it sent on
    behalf of one client request, and the validation it must pass before the
    governor believes it.
 */
module AttemptReceipts {
  import opened Clock
  import opened Policy

  const SCHEMA_VERSION := 1
  const MAX_RECEIPTS := 16
  const MAX_SERIALIZED_BYTES := 8192
  const MAX_IDENTIFIER_BYTES := 256
  const MAX_DURATION: Duration := DAY
  const MAX_CLOCK_SKEW: Duration := 300_000_000_000

  datatype Trigger = Initial | ExecutorRetry | CredentialRefresh | Fallback | Combo | CooldownReplay | UnknownTrigger

  datatype ReceiptOutcome =
    | Ok
    | Error
    | HttpError
    | TransportError
    | Cancelled
    | Uncertain
    | Classified(class_: OutcomeClass)
    | UnknownOutcome

  datatype Receipt = Receipt(
    schemaVersion: int,
    attemptID: Id,
    clientRequestID: Id,
    sequence: int,
    provider: Id,
    model: Id,
    accountLaneHash: Id,
    startedAt: Time,
    completedAt: Time,
    outcome: ReceiptOutcome,
    trigger: Trigger,
    upstreamReached: bool)

  // `serializedBytes` is the length of the set's JSON encoding.
  datatype ReceiptSet = ReceiptSet(
    schemaVersion: int,
    clientRequestID: Id,
    finalized: bool,
    receipts: seq<Receipt>,
    serializedBytes: nat)

  datatype Expectation = Expectation(
    clientRequestID: Id,
    provider: Id,
    model: Id,
    accountLaneHash: Id,
    requestStartedAt: Time,
    requestCompletedAt: Time,
    singleAttempt: bool,
    now: Time)

  datatype Code =
    | UnknownVersion
    | NotFinalized
    | Empty
    | TooMany
    | TooLarge
    | InvalidField
    | DuplicateID
    | Sequence
    | Correlation
    | RouteMismatch
    | Timestamp
    | BadOutcome
    | BadTrigger
    | TriggerMismatch
    | Amplification

  // The outcomes a receipt may carry that the governor knows by the same name.
  predicate ReceiptClass(class_: OutcomeClass) {
    class_ !in {Unclassified, Success, CancelledBeforeUpstream, UncertainReached}
  }

  predicate KnownOutcome(outcome: ReceiptOutcome) {
    match outcome
    case Classified(class_) => ReceiptClass(class_)
    case UnknownOutcome => false
    case _ => true
  }

  predicate IdentifierValid(value: Id) {
    0 < |value| <= MAX_IDENTIFIER_BYTES && forall i :: 0 <= i < |value| ==> value[i] >= ' ' && value[i] != '\U{7f}'
  }

  predicate TimestampsValid(started: Time, completed: Time, expected: Expectation) {
    && started != ZERO && completed != ZERO && started <= completed && completed - started <= MAX_DURATION
    && YEAR_2000 <= started && YEAR_2000 <= completed
    && (expected.requestStartedAt != ZERO ==> expected.requestStartedAt - MAX_CLOCK_SKEW <= started)
    && (expected.requestCompletedAt != ZERO ==>
          started <= expected.requestCompletedAt + MAX_CLOCK_SKEW && completed <= expected.requestCompletedAt + MAX_CLOCK_SKEW)
    && (expected.now != ZERO ==>
          && expected.now - MAX_DURATION <= started <= expected.now + MAX_DURATION
          && expected.now - MAX_DURATION <= completed <= expected.now + MAX_DURATION)
  }

  // The first complaint about the receipt at `index`, in the order checked.
  function Complaint(s: ReceiptSet, index: nat, seen: set<Id>, expected: Expectation): Option<Code>
    requires index < |s.receipts|
  {
    var r := s.receipts[index];
    if r.schemaVersion != SCHEMA_VERSION then Some(UnknownVersion)
    else if !IdentifierValid(r.attemptID) then Some(InvalidField)
    else if r.attemptID in seen then Some(DuplicateID)
    else if r.clientRequestID != s.clientRequestID then Some(Correlation)
    else if !r.upstreamReached then Some(InvalidField)
    else if r.sequence != index + 1 then Some(Sequence)
    else if !IdentifierValid(r.provider) || !IdentifierValid(r.model) || !IdentifierValid(r.accountLaneHash) then Some(InvalidField)
    else if expected.provider != "" && r.provider != expected.provider then Some(RouteMismatch)
    else if expected.model != "" && r.model != expected.model then Some(RouteMismatch)
    else if expected.accountLaneHash != "" && r.accountLaneHash != expected.accountLaneHash then Some(RouteMismatch)
    else if !KnownOutcome(r.outcome) then Some(BadOutcome)
    else if r.trigger.UnknownTrigger? then Some(BadTrigger)
    else if (index == 0) != r.trigger.Initial? then Some(TriggerMismatch)
    else if expected.singleAttempt && !r.trigger.Initial? then Some(TriggerMismatch)
    else if !TimestampsValid(r.startedAt, r.completedAt, expected) then Some(Timestamp)
    else if index > 0 && r.startedAt < s.receipts[index - 1].completedAt then Some(Timestamp)
    else None
  }

  function Complaints(s: ReceiptSet, index: nat, seen: set<Id>, expected: Expectation): Option<Code>
    requires index <= |s.receipts|
    decreases |s.receipts| - index
  {
    if index == |s.receipts| then None
    else
      var complaint := Complaint(s, index, seen, expected);
      if complaint.Some? then complaint
      else Complaints(s, index + 1, seen + {s.receipts[index].attemptID}, expected)
  }

  function Rejection(s: ReceiptSet, expected: Expectation): Option<Code> {
    if s.schemaVersion != SCHEMA_VERSION then Some(UnknownVersion)
    else if !s.finalized then Some(NotFinalized)
    else if |s.receipts| == 0 then Some(Empty)
    else if |s.receipts| > MAX_RECEIPTS then Some(TooMany)
    else if !IdentifierValid(s.clientRequestID) then Some(InvalidField)
    else if expected.clientRequestID != "" && s.clientRequestID != expected.clientRequestID then Some(Correlation)
    else if expected.singleAttempt && |s.receipts| != 1 then Some(Amplification)
    else
      var complaint := Complaints(s, 0, {}, expected);
      if complaint.Some? then complaint
      else if s.serializedBytes > MAX_SERIALIZED_BYTES then Some(TooLarge)
      else None
  }

  method Validate(s: ReceiptSet, expected: Expectation) returns (error: Option<Code>)
    ensures error == Rejection(s, expected)
  {
    if s.schemaVersion != SCHEMA_VERSION {
      return Some(UnknownVersion);
    }
    if !s.finalized {
      return Some(NotFinalized);
    }
    if |s.receipts| == 0 {
      return Some(Empty);
    }
    if |s.receipts| > MAX_RECEIPTS {
      return Some(TooMany);
    }
    if !IdentifierValid(s.clientRequestID) {
      return Some(InvalidField);
    }
    if expected.clientRequestID != "" && s.clientRequestID != expected.clientRequestID {
      return Some(Correlation);
    }
    if expected.singleAttempt && |s.receipts| != 1 {
      return Some(Amplification);
    }
    var seen: set<Id> := {};
    var index := 0;
    while index < |s.receipts|
      invariant 0 <= index <= |s.receipts|
      invariant Complaints(s, 0, {}, expected) == Complaints(s, index, seen, expected)
    {
      var complaint := Complaint(s, index, seen, expected);
      if complaint.Some? {
        return complaint;
      }
      seen := seen + {s.receipts[index].attemptID};
      index := index + 1;
    }
    if s.serializedBytes > MAX_SERIALIZED_BYTES {
      return Some(TooLarge);
    }
    return None;
  }

  // ----- What an accepted set guarantees -----

  ghost predicate InOrder(receipts: seq<Receipt>) {
    && (forall i, j :: 0 <= i < j < |receipts| ==> receipts[i].startedAt <= receipts[j].startedAt)
    && (forall i, j :: 0 <= i < j < |receipts| ==> receipts[i].attemptID != receipts[j].attemptID)
  }

  ghost predicate WellFormedReceipt(r: Receipt, index: nat, clientRequestID: Id, expected: Expectation) {
    && r.schemaVersion == SCHEMA_VERSION
    && r.upstreamReached
    && r.sequence == index + 1
    && r.clientRequestID == clientRequestID
    && IdentifierValid(r.attemptID) && IdentifierValid(r.provider) && IdentifierValid(r.model) && IdentifierValid(r.accountLaneHash)
    && (expected.provider != "" ==> r.provider == expected.provider)
    && (expected.model != "" ==> r.model == expected.model)
    && (expected.accountLaneHash != "" ==> r.accountLaneHash == expected.accountLaneHash)
    && KnownOutcome(r.outcome)
    && !r.trigger.UnknownTrigger? && (r.trigger.Initial? <==> index == 0)
    && TimestampsValid(r.startedAt, r.completedAt, expected)
  }

  // Receipts name distinct attempts and follow one another without overlap.
  ghost predicate Chained(receipts: seq<Receipt>) {
    && (forall i, j :: 0 <= i < j < |receipts| ==> receipts[i].attemptID != receipts[j].attemptID)
    && (forall i :: 1 <= i < |receipts| ==> receipts[i - 1].completedAt <= receipts[i].startedAt)
  }

  ghost predicate WellFormed(s: ReceiptSet, expected: Expectation) {
    && s.schemaVersion == SCHEMA_VERSION && s.finalized
    && 1 <= |s.receipts| <= MAX_RECEIPTS
    && (expected.singleAttempt ==> |s.receipts| == 1)
    && IdentifierValid(s.clientRequestID)
    && (expected.clientRequestID != "" ==> s.clientRequestID == expected.clientRequestID)
    && (forall i :: 0 <= i < |s.receipts| ==> WellFormedReceipt(s.receipts[i], i, s.clientRequestID, expected))
    && Chained(s.receipts)
    && s.serializedBytes <= MAX_SERIALIZED_BYTES
  }

  ghost predicate AcceptableFrom(s: ReceiptSet, index: nat, seen: set<Id>, expected: Expectation)
    requires index <= |s.receipts|
  {
    && (forall i :: index <= i < |s.receipts| ==> WellFormedReceipt(s.receipts[i], i, s.clientRequestID, expected))
    && (forall i :: index <= i < |s.receipts| ==> s.receipts[i].attemptID !in seen)
    && (forall i, j :: index <= i < j < |s.receipts| ==> s.receipts[i].attemptID != s.receipts[j].attemptID)
    && (forall i :: index <= i < |s.receipts| && i >= 1 ==> s.receipts[i - 1].completedAt <= s.receipts[i].startedAt)
  }

  lemma NoComplaint(s: ReceiptSet, index: nat, seen: set<Id>, expected: Expectation)
    requires index < |s.receipts|
    requires expected.singleAttempt ==> |s.receipts| == 1
    ensures Complaint(s, index, seen, expected).None? <==>
              && WellFormedReceipt(s.receipts[index], index, s.clientRequestID, expected) && s.receipts[index].attemptID !in seen
              && (index >= 1 ==> s.receipts[index - 1].completedAt <= s.receipts[index].startedAt)
  {
    hide IdentifierValid, KnownOutcome, TimestampsValid;
  }

  lemma {:induction false} NoComplaints(s: ReceiptSet, index: nat, seen: set<Id>, expected: Expectation)
    requires index <= |s.receipts|
    requires expected.singleAttempt ==> |s.receipts| == 1
    ensures Complaints(s, index, seen, expected).None? <==> AcceptableFrom(s, index, seen, expected)
    decreases |s.receipts| - index
  {
    if index < |s.receipts| {
      var r := s.receipts[index];
      var rest := seen + {r.attemptID};
      NoComplaints(s, index + 1, rest, expected);
      NoComplaint(s, index, seen, expected);
      hide Complaint, WellFormedReceipt;
      if AcceptableFrom(s, index, seen, expected) {
        assert AcceptableFrom(s, index + 1, rest, expected);
      }
    }
  }

  /** Validation accepts exactly the sets that describe a finished chain of
      distinct, non-overlapping attempts on the expected route, each inside
      the client request's own interval up to the permitted clock skew. */
  lemma AcceptsExactlyWellFormed(s: ReceiptSet, expected: Expectation)
    ensures Rejection(s, expected).None? <==> WellFormed(s, expected)
  {
    if !(expected.singleAttempt && |s.receipts| != 1) {
      NoComplaints(s, 0, {}, expected);
    }
  }

  lemma {:induction false} ChainedStarts(receipts: seq<Receipt>, i: nat, j: nat)
    requires Chained(receipts) && i <= j < |receipts|
    requires forall k :: 0 <= k < |receipts| ==> receipts[k].startedAt <= receipts[k].completedAt
    ensures receipts[i].startedAt <= receipts[j].startedAt
    decreases j - i
  {
    if i < j {
      ChainedStarts(receipts, i, j - 1);
      assert receipts[j - 1].completedAt <= receipts[j].startedAt;
    }
  }

  /** The receipts of an accepted set started in the order they are listed. */
  lemma AcceptedInOrder(s: ReceiptSet, expected: Expectation)
    requires Rejection(s, expected).None?
    ensures InOrder(s.receipts)
  {
    AcceptsExactlyWellFormed(s, expected);
    forall k | 0 <= k < |s.receipts|
      ensures s.receipts[k].startedAt <= s.receipts[k].completedAt
    {
      assert WellFormedReceipt(s.receipts[k], k, s.clientRequestID, expected);
    }
    forall i, j | 0 <= i < j < |s.receipts|
      ensures s.receipts[i].startedAt <= s.receipts[j].startedAt
    {
      ChainedStarts(s.receipts, i, j);
    }
  }
}
