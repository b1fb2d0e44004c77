/** The alert vocabulary shared by the manager and its providers: alert
    categories and severities, the alert record, the error every delivery
    failure is reported with, the per-provider delivery receipt, and the two
    settings read from the process environment. */
module AlertTypes {
  import opened Wrappers

  /** The enumerated alert categories; `Name` is the enum's string value. */
  datatype AlertType = WorkerDown | RepeatedFailures | RateLimit | JobFailure {
    function Name(): string {
      match this
      case WorkerDown => "WORKER_DOWN"
      case RepeatedFailures => "REPEATED_FAILURES"
      case RateLimit => "RATE_LIMIT"
      case JobFailure => "JOB_FAILURE"
    }
  }

  /** The four severities; `Name` is the enum's string value. */
  datatype AlertSeverity = Critical | High | Medium | Low {
    function Name(): string {
      match this
      case Critical => "CRITICAL"
      case High => "HIGH"
      case Medium => "MEDIUM"
      case Low => "LOW"
    }
  }

  /** Context attached to an alert: the schema asks for a key/value record;
      the webhook formatter also accepts a plain string. */
  datatype AlertContext = ContextText(text: string) | ContextRecord(entries: seq<(string, string)>)

  /** An alert: category, severity, originating worker, timestamp (in
      milliseconds since the epoch), optional context and human message. */
  datatype Alert = Alert(
    alertType: AlertType,
    severity: AlertSeverity,
    workerName: string,
    timestamp: int,
    context: Option<AlertContext>,
    message: string)

  /** Default number of failures in the window before a repeated-failures alert. */
  const DefaultFailuresInWindow: int := 5
  /** Default length of the failure-counting window, in minutes. */
  const DefaultTimeWindowMinutes: int := 10
  /** Default debounce window: five minutes in milliseconds. */
  const DefaultDebounceWindowMs: int := 5 * 60 * 1000

  /** `ADMIN_EMAIL`: the environment value, or "" when it is unset or empty. */
  function AdminEmail(env: Option<string>): (email: string)
    ensures env == None ==> email == ""
    ensures env.Some? && env.value != "" ==> email == env.value
    ensures email == "" <==> env == None || env.value == ""
  {
    match env
    case Some(v) => v
    case None => ""
  }

  /** `ALERT_ENABLED`: on when the variable is unset; when it is set, on only
      for the exact text "true" (so "TRUE", "1" and "" switch alerting off). */
  function AlertEnabled(env: Option<string>): (enabled: bool)
    ensures env == None ==> enabled
    ensures env.Some? ==> (enabled <==> env.value == "true")
  {
    env == None || env.value == "true"
  }

  lemma AlertEnabledIsCaseSensitive()
    ensures !AlertEnabled(Some("TRUE")) && !AlertEnabled(Some("1")) && !AlertEnabled(Some("false"))
    ensures AlertEnabled(None) && AlertEnabled(Some("true"))
  {
  }

  /** One entry of the aggregate failure context: a provider name and the
      message of the error that provider reported. */
  datatype FailureSummary = FailureSummary(provider: string, error: string)

  /** The shapes of context the source attaches to an `AlertError`. */
  datatype ErrorContext =
    | NoContext
    | TextContext(text: string)
    | ProviderFailures(failures: seq<FailureSummary>)
    | HttpFailure(status: int, body: string, attempts: int)
    | ThrownFailure(error: string, attempts: int)
    | AttemptsOnly(attempts: int)

  /** The error reported for every failed delivery.  Its code is fixed; the
      alert type, intended recipient and context are its metadata. */
  datatype AlertError = AlertError(message: string, alertType: string, recipient: string, context: ErrorContext) {
    const code: string := "ALERT_SEND_ERROR"
  }

  /** What a provider returns for a delivered batch: a delivery id, the time
      the transport accepted it and the provider's name. */
  datatype AlertSendResult = AlertSendResult(id: string, timestamp: int, provider: string)
}
