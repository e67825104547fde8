/** The account policy and the vocabulary shared by the governor's parts:
    requests, outcomes, delivery evidence and admission codes.
 */
module Policy {
  import opened Clock

  type Id = string

  datatype Option<+T> = None | Some(value: T)

  datatype AllowanceKind = PublishedQuota | UnlimitedText | UnknownAllowance

  datatype Config = Config(
    kind: AllowanceKind,
    rolling3h: int,
    rolling1h: int,
    rolling10m: int,
    manualReserve: int,
    taskBudget: int,
    retryBudget: int,
    queueCapacity: int,
    fairnessQuantum: int,
    minimumStartInterval: Duration,
    requireAttemptReceipts: bool,
    rateResponseThreshold: int,
    rateResponseWindow: Duration,
    resetSafetyMargin: Duration,
    attemptProvider: Id,
    model: Id,
    accountLaneHash: Id)
  {
    // Whether the policy carries a numeric local layer: rolling ceilings, a
    // manual reserve and the observed remaining counter.
    predicate Numeric() {
      kind != UnlimitedText
    }

    predicate CeilingsValid() {
      if Numeric() then
        0 < rolling10m < rolling1h < rolling3h && 0 <= manualReserve < rolling3h
      else
        rolling3h == 0 && rolling1h == 0 && rolling10m == 0 && manualReserve == 0
    }

    predicate Valid() {
      && CeilingsValid()
      && taskBudget > 0 && retryBudget >= 0 && queueCapacity > 0 && fairnessQuantum > 0
      && minimumStartInterval > 0
      && (requireAttemptReceipts ==> accountLaneHash != "" && model != "")
      && rateResponseThreshold > 0 && rateResponseWindow > 0 && resetSafetyMargin > 0
    }
  }

  datatype Request = Request(task: Id, id: Id, retry: bool)

  datatype Delivery = Unobserved | NotSent | SentConfirmed | SentUnconfirmed | ResponseStarted | Delivered

  // Unobserved delivery is treated as a request that may have been sent.
  function Effective(delivery: Delivery): Delivery {
    if delivery.Unobserved? then SentUnconfirmed else delivery
  }

  // What is known of the delivery says the call may have had its effect
  // without telling how it ended.
  predicate Ambiguous(delivery: Delivery) {
    delivery in {SentUnconfirmed, ResponseStarted}
  }

  datatype OutcomeClass =
    | Unclassified
    | Success
    | RateCapacity
    | AuthenticationExpired
    | AuthenticationDenied
    | Http403
    | LoginChallenge
    | Captcha
    | SuspiciousActivity
    | AccountWarning
    | FeatureRestriction
    | ConnectionReset
    | Timeout
    | EmptyResponse
    | MalformedUpstream
    | UpstreamServerFailure
    | CancelledBeforeUpstream
    | UncertainReached

  predicate SecuritySignal(class_: OutcomeClass) {
    class_ in {AuthenticationDenied, Http403, LoginChallenge, Captcha, SuspiciousActivity, AccountWarning, FeatureRestriction}
  }

  predicate Recoverable(class_: OutcomeClass) {
    class_ in {RateCapacity, ConnectionReset, Timeout, EmptyResponse, MalformedUpstream, UpstreamServerFailure}
  }

  function Priority(class_: OutcomeClass): int {
    if SecuritySignal(class_) then 100
    else match class_
      case AuthenticationExpired => 95
      case RateCapacity => 90
      case UncertainReached => 80
      case ConnectionReset => 70
      case Timeout => 70
      case MalformedUpstream => 60
      case EmptyResponse => 60
      case UpstreamServerFailure => 60
      case Success => 0
      case _ => 50
  }

  function Stronger(current: OutcomeClass, candidate: OutcomeClass): OutcomeClass {
    if Priority(candidate) > Priority(current) then candidate else current
  }

  datatype Outcome = Outcome(class_: OutcomeClass, retryAfter: Duration, resetAt: Time, delivery: Delivery)

  // An observed ambiguous delivery overrides what the classifier made of the
  // call.
  function WithDeliveryEvidence(outcome: Outcome): Outcome {
    if Ambiguous(outcome.delivery) then outcome.(class_ := UncertainReached) else outcome
  }

  datatype AdmissionCode =
    | Admitted
    | Delayed
    | ContextCancelled
    | QueueFull
    | TaskBudgetExhausted
    | RollingBudgetExhausted
    | UpstreamAllowanceExhausted
    | CooldownActive
    | CircuitIsOpen
    | UnsafeProviderAmplification
    | UnsafeConfiguration
    | HumanAcknowledgementRequired
    | RetryBudgetExhausted
    | AuthenticationRefreshRequired
    | DuplicateClientRequest
    | GovernorClosed

  datatype CircuitState = Closed | OpenUntil | HumanReviewRequired

  datatype UpstreamCircuit = UpstreamUnset | UpstreamUnknown | UpstreamClosed | UpstreamOpen

  datatype TelemetrySnapshot = TelemetrySnapshot(
    remaining: Option<int>,
    resetAt: Time,
    cooldownUntil: Time,
    retryAfter: Duration,
    rateLimited: bool,
    capacityExhausted: bool,
    upstream: UpstreamCircuit,
    routeMismatch: bool)
}
