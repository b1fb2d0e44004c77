/** The chat-webhook provider: it formats a batch of alerts as one webhook
    message (one embed per alert, at most ten) and POSTs it, retrying on
    rate limiting, error statuses and transport exceptions.

    The HTTP transport is an oracle: `fetch(k)` is what the k-th POST of a
    delivery returns.  Waiting is not performed; each requested sleep is
    recorded in a ghost log of delays. */
module Discord {
  import opened Wrappers
  import opened Text
  import opened AlertTypes
  import opened RetryPolicy

  const ProviderName: string := "discord"
  /** Longest context text kept in an embed field. */
  const ContextLimit: nat := 1000
  /** Characters of an over-long context kept before the ellipsis. */
  const ContextKeep: nat := 997
  /** The webhook API accepts at most this many embeds per message. */
  const MaxEmbeds: nat := 10
  const DefaultUsername: string := "Alert Bot"
  const FooterText: string := "Alert System"
  const DefaultIcon: string := "ℹ️"
  const DefaultColor: int := 0x808080

  /** Provider configuration: webhook address, optional bot name and avatar,
      optional retry settings. */
  datatype Config = Config(webhookUrl: string, username: Option<string>, avatarUrl: Option<string>, retry: Option<RetryOptions>)

  /** A constructed provider: its configuration and resolved retry settings. */
  datatype Provider = Provider(config: Config, retryConfig: RetryConfig)

  /** `new DiscordProvider(config)`. */
  function NewProvider(config: Config): (p: Provider)
    ensures p.config == config
    ensures config.retry == None ==> p.retryConfig == RetryConfig(DefaultMaxAttempts, DefaultDelays)
    ensures p.retryConfig.maxAttempts
            == if config.retry.Some? then config.retry.value.maxAttempts.GetOr(DefaultMaxAttempts) else DefaultMaxAttempts
    ensures p.retryConfig.delays
            == if config.retry.Some? then config.retry.value.delays.GetOr(DefaultDelays) else DefaultDelays
  {
    Provider(config, Resolve(config.retry))
  }

  /** The title icon of a severity, with a fallback for any other name
      (names inherited from `Object.prototype` aside). */
  function SeverityIcon(severity: string): string {
    if severity == "CRITICAL" then "\U{1F6A8}"
    else if severity == "HIGH" then "⚠️"
    else if severity == "MEDIUM" then "ℹ️"
    else if severity == "LOW" then "\U{1F4DD}"
    else DefaultIcon
  }

  /** The embed colour of a severity, grey for any other name (names
      inherited from `Object.prototype` aside). */
  function SeverityColor(severity: string): int {
    if severity == "CRITICAL" then 0xff0000
    else if severity == "HIGH" then 0xff9900
    else if severity == "MEDIUM" then 0xffff00
    else if severity == "LOW" then 0x00ff00
    else DefaultColor
  }

  /** Each of the four severities has its own colour; the grey fallback is
      never used for a well-formed alert. */
  lemma SeverityColorsDistinct(a: AlertSeverity, b: AlertSeverity)
    ensures SeverityColor(a.Name()) != DefaultColor
    ensures a != b ==> SeverityColor(a.Name()) != SeverityColor(b.Name())
  {
  }

  datatype EmbedField = EmbedField(name: string, value: string, inline: bool)

  /** One formatted alert.  `timestamp` is the alert's time in milliseconds;
      its ISO-8601 rendering is not modelled. */
  datatype Embed = Embed(title: string, description: string, color: int, fields: seq<EmbedField>, timestamp: int, footer: string)

  /** The webhook message body. */
  datatype Payload = Payload(username: string, avatarUrl: Option<string>, embeds: seq<Embed>)

  /** Context text longer than the limit is cut to its first 997 characters
      followed by "...", exactly 1000 characters in all. */
  function Truncate(s: string): (r: string)
    ensures |r| <= ContextLimit
    ensures |s| <= ContextLimit ==> r == s
    ensures |s| > ContextLimit ==> |r| == ContextLimit && r[..ContextKeep] == s[..ContextKeep] && r[ContextKeep..] == "..."
  {
    if |s| > ContextLimit then s[..ContextKeep] + "..." else s
  }

  /** `if (alert.context)`: an absent context and the empty string are falsy;
      any record is truthy. */
  predicate HasContext(context: Option<AlertContext>) {
    match context
    case None => false
    case Some(ContextText(t)) => t != ""
    case Some(ContextRecord(_)) => true
  }

  /** The context as text: a string as is, a record through the JSON encoder
      (an opaque function here). */
  function ContextString(context: AlertContext, stringify: seq<(string, string)> -> string): string {
    match context
    case ContextText(t) => t
    case ContextRecord(entries) => stringify(entries)
  }

  /** The Context field's value: the truncated text in a fenced json block. */
  function CodeBlock(text: string): string {
    "```json\n" + text + "\n```"
  }

  /** Some field of `fields` has the given name. */
  predicate HasField(fields: seq<EmbedField>, name: string) {
    exists f :: f in fields && f.name == name
  }

  /** The fields of an alert's embed.  Type and Severity always come first;
      a Worker field is present exactly when the worker name is non-empty and
      a Context field exactly when the context is truthy, and nothing else. */
  function EmbedFields(alert: Alert, stringify: seq<(string, string)> -> string): (fields: seq<EmbedField>)
    ensures |fields| >= 2
    ensures fields[0] == EmbedField("Type", alert.alertType.Name(), true)
    ensures fields[1] == EmbedField("Severity", alert.severity.Name(), true)
    ensures HasField(fields, "Worker") <==> alert.workerName != ""
    ensures HasField(fields, "Context") <==> HasContext(alert.context)
    ensures |fields| == 2 + (if alert.workerName != "" then 1 else 0) + (if HasContext(alert.context) then 1 else 0)
    ensures alert.workerName != "" ==> fields[2] == EmbedField("Worker", alert.workerName, true)
    ensures HasContext(alert.context) ==>
              fields[|fields| - 1] == EmbedField("Context", CodeBlock(Truncate(ContextString(alert.context.value, stringify))), false)
    ensures forall f :: f in fields && f.name == "Worker" ==> f == EmbedField("Worker", alert.workerName, true)
    ensures forall f :: f in fields && f.name == "Context" ==>
              f == EmbedField("Context", CodeBlock(Truncate(ContextString(alert.context.value, stringify))), false)
  {
    var base := [EmbedField("Type", alert.alertType.Name(), true), EmbedField("Severity", alert.severity.Name(), true)];
    var withWorker := if alert.workerName != "" then base + [EmbedField("Worker", alert.workerName, true)] else base;
    if HasContext(alert.context)
    then withWorker + [EmbedField("Context", CodeBlock(Truncate(ContextString(alert.context.value, stringify))), false)]
    else withWorker
  }

  /** One embed per alert: the title names the severity (with its icon) and
      the alert type, the colour follows the severity, and the fields are
      those described by `EmbedFields`. */
  function CreateEmbed(alert: Alert, stringify: seq<(string, string)> -> string): (e: Embed)
    ensures e.fields == EmbedFields(alert, stringify)
    ensures e.title == SeverityIcon(alert.severity.Name()) + " " + alert.severity.Name() + ": " + alert.alertType.Name()
    ensures e.description == alert.message && e.color == SeverityColor(alert.severity.Name())
    ensures e.timestamp == alert.timestamp && e.footer == FooterText
  {
    var severity := alert.severity.Name();
    Embed(SeverityIcon(severity) + " " + severity + ": " + alert.alertType.Name(),
          alert.message, SeverityColor(severity), EmbedFields(alert, stringify), alert.timestamp, FooterText)
  }

  /** `alerts.map(createEmbed)`. */
  function CreateEmbeds(alerts: seq<Alert>, stringify: seq<(string, string)> -> string): (es: seq<Embed>)
    ensures |es| == |alerts|
    ensures forall i :: 0 <= i < |alerts| ==> es[i] == CreateEmbed(alerts[i], stringify)
  {
    seq(|alerts|, i requires 0 <= i < |alerts| => CreateEmbed(alerts[i], stringify))
  }

  /** The message body: at most ten embeds, the first ones of the batch in
      order; the bot name defaults to "Alert Bot". */
  function CreatePayload(config: Config, embeds: seq<Embed>): (p: Payload)
    ensures |p.embeds| <= MaxEmbeds
    ensures |p.embeds| == if |embeds| < MaxEmbeds then |embeds| else MaxEmbeds
    ensures p.embeds == embeds[..|p.embeds|]
    ensures p.username == (if config.username.Some? then config.username.value else DefaultUsername)
    ensures p.avatarUrl == config.avatarUrl
  {
    Payload(config.username.GetOr(DefaultUsername), config.avatarUrl,
            if |embeds| <= MaxEmbeds then embeds else embeds[..MaxEmbeds])
  }

  /** What one POST yields: a response (status, the Retry-After header in
      seconds when present, the body text) or a thrown transport error. */
  datatype HttpOutcome = Response(status: int, retryAfter: Option<nat>, body: string) | Thrown(message: string)

  /** `response.ok`: a 2xx status. */
  predicate IsOk(o: HttpOutcome) {
    o.Response? && 200 <= o.status < 300
  }

  /** The wait after a failed attempt that is not the last one: for a 429 the
      Retry-After header in milliseconds when present, otherwise (and for
      every other failure) the scheduled delay of that attempt. */
  function BackoffAfter(o: HttpOutcome, attempt: nat, delays: seq<int>): int {
    if o.Response? && o.status == 429 && o.retryAfter.Some?
    then o.retryAfter.value * 1000
    else DelayAt(delays, attempt)
  }

  /** The receipt of a delivery accepted at time `now`. */
  function Receipt(now: int): AlertSendResult {
    AlertSendResult("discord-" + IntToString(now), now, ProviderName)
  }

  /** The error for a failed final attempt: status and body of a response, or
      the exception message, with the number of attempts made. */
  function AttemptError(o: HttpOutcome, alertType: string, attempts: int): AlertError {
    match o
    case Response(status, _, body) =>
      AlertError("Failed to send Discord alert", alertType, ProviderName, HttpFailure(status, body, attempts))
    case Thrown(message) =>
      AlertError("Failed to send Discord alert", alertType, ProviderName, ThrownFailure(message, attempts))
  }

  /** The error when the attempt loop runs zero times. */
  function ExhaustedError(alertType: string, maxAttempts: int): AlertError {
    AlertError("Failed to send Discord alert after retries", alertType, ProviderName, AttemptsOnly(maxAttempts))
  }

  /** The result and the number of POSTs of a delivery.  With a positive
      budget the first 2xx ends the delivery with success, every earlier
      attempt failed, and a failure ends it only on the last allowed attempt.
      With no budget nothing is sent. */
  predicate RetryResult(retry: RetryConfig, fetch: nat -> HttpOutcome, alertType: string, now: int,
                        r: Result<AlertSendResult, AlertError>, posts: nat)
  {
    if retry.maxAttempts <= 0 then
      posts == 0 && r == Failure(ExhaustedError(alertType, retry.maxAttempts))
    else
      && 1 <= posts <= retry.maxAttempts
      && (forall k :: 0 <= k < posts - 1 ==> !IsOk(fetch(k)))
      && if IsOk(fetch(posts - 1)) then r == Success(Receipt(now))
         else posts == retry.maxAttempts && r == Failure(AttemptError(fetch(posts - 1), alertType, posts))
  }

  /** The delays slept during a delivery: one backoff after each attempt but
      the last. */
  ghost predicate SleepLog(retry: RetryConfig, fetch: nat -> HttpOutcome, posts: nat, sleeps: seq<int>) {
    && |sleeps| == (if posts == 0 then 0 else posts - 1)
    && forall k :: 0 <= k < |sleeps| ==> sleeps[k] == BackoffAfter(fetch(k), k, retry.delays)
  }

  /** The whole observable behaviour of a delivery: the result, the number
      of POSTs made and the delays slept. */
  ghost predicate RetryContract(retry: RetryConfig, fetch: nat -> HttpOutcome, alertType: string, now: int,
                                r: Result<AlertSendResult, AlertError>, posts: nat, sleeps: seq<int>)
  {
    RetryResult(retry, fetch, alertType, now, r, posts) && SleepLog(retry, fetch, posts, sleeps)
  }

  /** The contract leaves no freedom: at most one result, POST count and
      delay log satisfy it for a given transport. */
  lemma RetryContractDeterministic(retry: RetryConfig, fetch: nat -> HttpOutcome, alertType: string, now: int,
                                   r1: Result<AlertSendResult, AlertError>, posts1: nat, sleeps1: seq<int>,
                                   r2: Result<AlertSendResult, AlertError>, posts2: nat, sleeps2: seq<int>)
    requires RetryContract(retry, fetch, alertType, now, r1, posts1, sleeps1)
    requires RetryContract(retry, fetch, alertType, now, r2, posts2, sleeps2)
    ensures r1 == r2 && posts1 == posts2 && sleeps1 == sleeps2
  {
  }

  /** When every POST fails, exactly `maxAttempts` POSTs are made; the error
      reports that many attempts and the delays slept are the backoffs of the
      first `maxAttempts - 1` attempts. */
  lemma AllAttemptsFail(retry: RetryConfig, fetch: nat -> HttpOutcome, alertType: string, now: int,
                        r: Result<AlertSendResult, AlertError>, posts: nat, sleeps: seq<int>)
    requires RetryContract(retry, fetch, alertType, now, r, posts, sleeps)
    requires retry.maxAttempts > 0
    requires forall k :: 0 <= k < retry.maxAttempts ==> !IsOk(fetch(k))
    ensures posts == retry.maxAttempts
    ensures r == Failure(AttemptError(fetch(retry.maxAttempts - 1), alertType, retry.maxAttempts))
    ensures r.error.context.attempts == retry.maxAttempts
    ensures |sleeps| == retry.maxAttempts - 1
  {
  }

  /** POST attempts up to `maxAttempts` times, returning at the first 2xx. */
  method SendWithRetry(retry: RetryConfig, fetch: nat -> HttpOutcome, alertType: string, now: int)
    returns (r: Result<AlertSendResult, AlertError>, posts: nat, ghost sleeps: seq<int>)
    ensures RetryResult(retry, fetch, alertType, now, r, posts)
    ensures SleepLog(retry, fetch, posts, sleeps)
  {
    var attempt: nat := 0;
    posts := 0;
    sleeps := [];
    while attempt < retry.maxAttempts
      invariant attempt == 0 || attempt < retry.maxAttempts
      invariant posts == attempt && |sleeps| == attempt
      invariant forall k :: 0 <= k < attempt ==> !IsOk(fetch(k))
      invariant forall k :: 0 <= k < attempt ==> sleeps[k] == BackoffAfter(fetch(k), k, retry.delays)
      decreases retry.maxAttempts - attempt
    {
      var outcome := fetch(attempt);
      posts := attempt + 1;
      match outcome {
        case Response(status, retryAfter, body) =>
          if 200 <= status < 300 {
            r := Success(Receipt(now));
            return;
          }
          if status == 429 {
            var delay := if retryAfter.Some? then retryAfter.value * 1000 else DelayAt(retry.delays, attempt);
            if attempt < retry.maxAttempts - 1 {
              sleeps := sleeps + [delay];
              attempt := attempt + 1;
              continue;
            }
          }
          if attempt == retry.maxAttempts - 1 {
            r := Failure(AlertError("Failed to send Discord alert", alertType, ProviderName, HttpFailure(status, body, attempt + 1)));
            return;
          }
          sleeps := sleeps + [DelayAt(retry.delays, attempt)];
        case Thrown(message) =>
          if attempt == retry.maxAttempts - 1 {
            r := Failure(AlertError("Failed to send Discord alert", alertType, ProviderName, ThrownFailure(message, attempt + 1)));
            return;
          }
          sleeps := sleeps + [DelayAt(retry.delays, attempt)];
      }
      attempt := attempt + 1;
    }
    r := Failure(ExhaustedError(alertType, retry.maxAttempts));
  }

  /** A constructed provider makes no more POSTs than the configured
      attempt budget (3 when none is configured), and none at all for a
      budget of zero or less. */
  lemma ConfiguredBudgetBoundsAttempts(config: Config, fetch: nat -> HttpOutcome, alertType: string, now: int,
                                       r: Result<AlertSendResult, AlertError>, posts: nat)
    requires RetryResult(NewProvider(config).retryConfig, fetch, alertType, now, r, posts)
    ensures var budget := if config.retry.Some? then config.retry.value.maxAttempts.GetOr(DefaultMaxAttempts)
                          else DefaultMaxAttempts;
            posts <= (if budget > 0 then budget else 0)
    ensures config.retry.Some? && config.retry.value.maxAttempts.Some? && config.retry.value.maxAttempts.value <= 0
            ==> posts == 0 && r.Failure?
  {
    var p := NewProvider(config);
    assert p.retryConfig.maxAttempts
           == if config.retry.Some? then config.retry.value.maxAttempts.GetOr(DefaultMaxAttempts) else DefaultMaxAttempts;
  }

  /** Delivers a batch: an empty batch is refused without any POST; otherwise
      the batch is formatted into one message and sent with retries, the
      error naming the first alert's type. */
  method SendBatch(p: Provider, alerts: seq<Alert>, stringify: seq<(string, string)> -> string,
                   fetch: nat -> HttpOutcome, now: int)
    returns (r: Result<AlertSendResult, AlertError>, payload: Option<Payload>, posts: nat, ghost sleeps: seq<int>)
    ensures alerts == [] ==> r == Failure(AlertError("No alerts to send", "UNKNOWN", ProviderName, NoContext))
    ensures alerts == [] ==> payload == None && posts == 0
    ensures alerts != [] ==> payload == Some(CreatePayload(p.config, CreateEmbeds(alerts, stringify)))
    ensures alerts != [] ==> RetryResult(p.retryConfig, fetch, alerts[0].alertType.Name(), now, r, posts)
    ensures alerts == [] ==> sleeps == []
    ensures alerts != [] ==> SleepLog(p.retryConfig, fetch, posts, sleeps)
  {
    if alerts == [] {
      r := Failure(AlertError("No alerts to send", "UNKNOWN", ProviderName, NoContext));
      payload, posts, sleeps := None, 0, [];
      return;
    }
    var embeds := CreateEmbeds(alerts, stringify);
    payload := Some(CreatePayload(p.config, embeds));
    r, posts, sleeps := SendWithRetry(p.retryConfig, fetch, alerts[0].alertType.Name(), now);
  }

  /** `send(alert)`: the batch of that one alert. */
  method Send(p: Provider, alert: Alert, stringify: seq<(string, string)> -> string, fetch: nat -> HttpOutcome, now: int)
    returns (r: Result<AlertSendResult, AlertError>, payload: Option<Payload>, posts: nat, ghost sleeps: seq<int>)
    ensures payload == Some(CreatePayload(p.config, [CreateEmbed(alert, stringify)]))
    ensures RetryResult(p.retryConfig, fetch, alert.alertType.Name(), now, r, posts)
    ensures SleepLog(p.retryConfig, fetch, posts, sleeps)
  {
    r, payload, posts, sleeps := SendBatch(p, [alert], stringify, fetch, now);
    assert CreateEmbeds([alert], stringify) == [CreateEmbed(alert, stringify)];
  }

  /** `verify()`: the GET succeeds with a 2xx; an exception counts as false. */
  function Verify(outcome: HttpOutcome): (reachable: bool)
    ensures reachable <==> outcome.Response? && 200 <= outcome.status < 300
  {
    match outcome
    case Response(status, _, _) => 200 <= status < 300
    case Thrown(_) => false
  }
}
