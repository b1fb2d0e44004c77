/** The e-mail provider: it renders a batch of alerts into one HTML message
    and hands it to a mail client, retrying only transient failures.

    The template renderer and the mail client are oracles: `render` is what
    rendering yields (the HTML, or the message of the exception it threw);
    `mailer(k)` is what the k-th send of a delivery returns.  Each requested
    sleep is recorded in a ghost log of delays. */
module Email {
  import opened Wrappers
  import opened Text
  import opened AlertTypes
  import opened RetryPolicy

  const ProviderName: string := "email"

  /** Sender and recipient addresses and optional retry settings (the SMTP
      settings only configure the mail client and are not modelled). */
  datatype Config = Config(fromEmail: string, toEmail: string, retry: Option<RetryOptions>)

  /** A constructed provider: its configuration and resolved retry settings. */
  datatype Provider = Provider(config: Config, retryConfig: RetryConfig)

  /** `new EmailProvider(config)`. */
  function NewProvider(config: Config): (p: Provider)
    ensures p.config == config
    ensures config.retry == None ==> p.retryConfig == RetryConfig(DefaultMaxAttempts, DefaultDelays)
    ensures p.retryConfig.maxAttempts
            == if config.retry.Some? then config.retry.value.maxAttempts.GetOr(DefaultMaxAttempts) else DefaultMaxAttempts
    ensures p.retryConfig.delays
            == if config.retry.Some? then config.retry.value.delays.GetOr(DefaultDelays) else DefaultDelays
  {
    Provider(config, Resolve(config.retry))
  }

  /** An error reported by the mail client: its message and, when the
      transport supplied one, a status code. */
  datatype MailError = MailError(message: string, statusCode: Option<int>)

  /** The client's `{ data, error }` reply: an error, or delivery data whose
      `id` may be missing. */
  datatype MailerReply = MailFailed(error: MailError) | MailSent(dataId: Option<string>)

  /** The message handed to the mail client. */
  datatype MailMessage = MailMessage(from: string, to: string, subject: string, html: string)

  /** An error is worth retrying when the transport reports 429 or 503, or
      when its lower-cased message mentions a timeout, the network or a
      refused connection. */
  predicate IsTransientError(e: MailError)
    ensures IsTransientError(e) <==>
              || e.statusCode == Some(429) || e.statusCode == Some(503)
              || HasSubstring(ToLower(e.message), "timeout")
              || HasSubstring(ToLower(e.message), "network")
              || HasSubstring(ToLower(e.message), "econnrefused")
  {
    var msg := ToLower(e.message);
    ContainsIsSubstring(msg, "timeout");
    ContainsIsSubstring(msg, "network");
    ContainsIsSubstring(msg, "econnrefused");
    || e.statusCode == Some(429) || e.statusCode == Some(503)
    || Contains(msg, "timeout") || Contains(msg, "network") || Contains(msg, "econnrefused")
  }

  /** A refused connection is retried whatever the case of its message. */
  lemma RefusedConnectionIsTransient()
    ensures IsTransientError(MailError("connect ECONNREFUSED", None))
  {
    assert ToLower("connect ECONNREFUSED") == "connect econnrefused";
    assert OccursAt("connect econnrefused", "econnrefused", 8);
  }

  /** A 503 status is transient whatever the message says. */
  lemma UnavailableIsTransient(message: string)
    ensures IsTransientError(MailError(message, Some(503)))
  {
  }

  /** A rejected recipient is a permanent error. */
  lemma InvalidRecipientIsPermanent()
    ensures !IsTransientError(MailError("invalid recipient", None))
  {
    var m := "invalid recipient";
    assert ToLower(m) == m;
    assert 'o' !in m && 'w' !in m;
    MissingCharNoSubstring(m, "timeout", 4);
    MissingCharNoSubstring(m, "network", 3);
    MissingCharNoSubstring(m, "econnrefused", 2);
  }

  /** A word with a character that `s` lacks does not occur in `s`. */
  lemma MissingCharNoSubstring(s: string, w: string, j: nat)
    requires j < |w| && w[j] !in s
    ensures !HasSubstring(s, w)
  {
    forall i | 0 <= i && i + |w| <= |s| ensures !OccursAt(s, w, i) {
      assert s[i..i + |w|][j] == s[i + j];
    }
  }

  /** The subject icon of a severity, as the source file spells it, with the
      MEDIUM icon as fallback for any other name (names inherited from
      `Object.prototype` aside). */
  function SubjectIcon(severity: string): (icon: string)
    ensures severity !in {"CRITICAL", "HIGH", "MEDIUM", "LOW"} ==> icon == DefaultSubjectIcon
    ensures |icon| >= 1
  {
    if severity == "CRITICAL" then "\U{F8FF}üö®"
    else if severity == "HIGH" then "‚ö†Ô∏è"
    else if severity == "MEDIUM" then DefaultSubjectIcon
    else if severity == "LOW" then "\U{F8FF}üìù"
    else DefaultSubjectIcon
  }

  const DefaultSubjectIcon: string := "‚ÑπÔ∏è"

  /** `getSubject`: the severity's icon, a space, the severity, ": " and
      the alert type, for any severity and type text. */
  function GetSubject(severity: string, alertType: string): (s: string)
    ensures var n := |SubjectIcon(severity)|;
            && |s| == n + 1 + |severity| + 2 + |alertType|
            && s[..n] == SubjectIcon(severity)
            && s[n] == ' '
            && s[n + 1..n + 1 + |severity|] == severity
            && s[n + 1 + |severity|..n + 3 + |severity|] == ": "
            && s[n + 3 + |severity|..] == alertType
  {
    SubjectIcon(severity) + " " + severity + ": " + alertType
  }

  /** The four severities get four different icons, an unknown severity
      gets the MEDIUM icon, and a subject starts with its severity's icon
      and ends with " SEVERITY: TYPE". */
  lemma SubjectIcons(a: AlertSeverity, b: AlertSeverity, severity: string, alertType: string)
    ensures a != b ==> SubjectIcon(a.Name()) != SubjectIcon(b.Name())
    ensures severity !in {"CRITICAL", "HIGH", "MEDIUM", "LOW"} ==> SubjectIcon(severity) == SubjectIcon("MEDIUM")
    ensures var s := GetSubject(severity, alertType);
            var tail := " " + severity + ": " + alertType;
            && |s| == |SubjectIcon(severity)| + |tail|
            && s[..|SubjectIcon(severity)|] == SubjectIcon(severity)
            && s[|s| - |tail|..] == tail
  {
    var s := GetSubject(severity, alertType);
    var tail := " " + severity + ": " + alertType;
    assert s == SubjectIcon(severity) + tail;
  }

  /** A reply id that counts as delivered: present and non-empty. */
  predicate ValidId(id: Option<string>) {
    id.Some? && id.value != ""
  }

  /** The receipt of a message the client accepted with id `id` at `now`. */
  function Receipt(id: string, now: int): AlertSendResult {
    AlertSendResult(id, now, ProviderName)
  }

  /** The error for a send that failed on attempt number `attempts`. */
  function SendError(e: MailError, alertType: string, toEmail: string, attempts: int): AlertError {
    AlertError("Failed to send email", alertType, toEmail, ThrownFailure(e.message, attempts))
  }

  /** The error for a reply without a delivery id. */
  function InvalidResponseError(alertType: string, toEmail: string): AlertError {
    AlertError("Invalid response from mailer", alertType, toEmail, NoContext)
  }

  /** The error when the attempt loop runs zero times. */
  function ExhaustedError(alertType: string, toEmail: string, maxAttempts: int): AlertError {
    AlertError("Failed to send email after retries", alertType, toEmail, AttemptsOnly(maxAttempts))
  }

  /** A reply that makes the provider wait and try again. */
  predicate Retryable(reply: MailerReply) {
    reply.MailFailed? && IsTransientError(reply.error)
  }

  /** The result and the number of sends of a delivery.  With a positive
      budget the sends before the last one all failed transiently; the last
      reply decides the result: a failure (permanent, or transient on the
      final allowed attempt), a reply without id, or success carrying the
      client's id.  With no budget nothing is sent. */
  predicate RetryResult(retry: RetryConfig, toEmail: string, mailer: nat -> MailerReply, alertType: string,
                        now: int, r: Result<AlertSendResult, AlertError>, sends: nat)
  {
    if retry.maxAttempts <= 0 then
      sends == 0 && r == Failure(ExhaustedError(alertType, toEmail, retry.maxAttempts))
    else
      && 1 <= sends <= retry.maxAttempts
      && (forall k :: 0 <= k < sends - 1 ==> Retryable(mailer(k)))
      && match mailer(sends - 1)
         case MailFailed(e) =>
           (!IsTransientError(e) || sends == retry.maxAttempts) && r == Failure(SendError(e, alertType, toEmail, sends))
         case MailSent(id) =>
           r == if ValidId(id) then Success(Receipt(id.value, now)) else Failure(InvalidResponseError(alertType, toEmail))
  }

  /** The delays slept during a delivery: the scheduled delay after each send
      but the last. */
  ghost predicate SleepLog(retry: RetryConfig, sends: nat, sleeps: seq<int>) {
    && |sleeps| == (if sends == 0 then 0 else sends - 1)
    && forall k :: 0 <= k < |sleeps| ==> sleeps[k] == DelayAt(retry.delays, k)
  }

  /** The whole observable behaviour of a delivery: the result, the number
      of sends and the delays slept. */
  ghost predicate RetryContract(retry: RetryConfig, toEmail: string, mailer: nat -> MailerReply, alertType: string,
                                now: int, r: Result<AlertSendResult, AlertError>, sends: nat, sleeps: seq<int>)
  {
    RetryResult(retry, toEmail, mailer, alertType, now, r, sends) && SleepLog(retry, sends, sleeps)
  }

  /** At most one result, send count and delay log satisfy the contract. */
  lemma RetryContractDeterministic(retry: RetryConfig, toEmail: string, mailer: nat -> MailerReply, alertType: string, now: int,
                                   r1: Result<AlertSendResult, AlertError>, sends1: nat, sleeps1: seq<int>,
                                   r2: Result<AlertSendResult, AlertError>, sends2: nat, sleeps2: seq<int>)
    requires RetryContract(retry, toEmail, mailer, alertType, now, r1, sends1, sleeps1)
    requires RetryContract(retry, toEmail, mailer, alertType, now, r2, sends2, sleeps2)
    ensures r1 == r2 && sends1 == sends2 && sleeps1 == sleeps2
  {
  }

  /** A permanent error on the first send stops at once: one send, no wait. */
  lemma PermanentErrorNotRetried(retry: RetryConfig, toEmail: string, mailer: nat -> MailerReply, alertType: string, now: int,
                                 r: Result<AlertSendResult, AlertError>, sends: nat, sleeps: seq<int>)
    requires RetryContract(retry, toEmail, mailer, alertType, now, r, sends, sleeps)
    requires retry.maxAttempts > 0 && mailer(0).MailFailed? && !IsTransientError(mailer(0).error)
    ensures sends == 1 && sleeps == []
    ensures r == Failure(SendError(mailer(0).error, alertType, toEmail, 1))
  {
  }

  /** Sends up to `maxAttempts` times, retrying only transient errors. */
  method SendWithRetry(retry: RetryConfig, toEmail: string, mailer: nat -> MailerReply, alertType: string, now: int)
    returns (r: Result<AlertSendResult, AlertError>, sends: nat, ghost sleeps: seq<int>)
    ensures RetryResult(retry, toEmail, mailer, alertType, now, r, sends)
    ensures SleepLog(retry, sends, sleeps)
  {
    var attempt: nat := 0;
    sends := 0;
    sleeps := [];
    while attempt < retry.maxAttempts
      invariant attempt == 0 || attempt < retry.maxAttempts
      invariant sends == attempt && |sleeps| == attempt
      invariant forall k :: 0 <= k < attempt ==> Retryable(mailer(k))
      invariant forall k :: 0 <= k < attempt ==> sleeps[k] == DelayAt(retry.delays, k)
      decreases retry.maxAttempts - attempt
    {
      var reply := mailer(attempt);
      sends := attempt + 1;
      match reply {
        case MailFailed(e) =>
          var transient := IsTransientError(e);
          if !transient || attempt == retry.maxAttempts - 1 {
            r := Failure(AlertError("Failed to send email", alertType, toEmail, ThrownFailure(e.message, attempt + 1)));
            return;
          }
          sleeps := sleeps + [DelayAt(retry.delays, attempt)];
          attempt := attempt + 1;
          continue;
        case MailSent(id) =>
          if !ValidId(id) {
            r := Failure(AlertError("Invalid response from mailer", alertType, toEmail, NoContext));
            return;
          }
          r := Success(AlertSendResult(id.value, now, ProviderName));
          return;
      }
    }
    r := Failure(AlertError("Failed to send email after retries", alertType, toEmail, AttemptsOnly(retry.maxAttempts)));
  }

  /** A constructed provider makes no more sends than the configured
      attempt budget (3 when none is configured), and none at all for a
      budget of zero or less. */
  lemma ConfiguredBudgetBoundsAttempts(config: Config, mailer: nat -> MailerReply, alertType: string, now: int,
                                       r: Result<AlertSendResult, AlertError>, posts: nat)
    requires RetryResult(NewProvider(config).retryConfig, config.toEmail, mailer, alertType, now, r, posts)
    ensures var budget := if config.retry.Some? then config.retry.value.maxAttempts.GetOr(DefaultMaxAttempts)
                          else DefaultMaxAttempts;
            posts <= (if budget > 0 then budget else 0)
    ensures config.retry.Some? && config.retry.value.maxAttempts.Some? && config.retry.value.maxAttempts.value <= 0
            ==> posts == 0 && r.Failure?
  {
    var p := NewProvider(config);
    assert p.retryConfig.maxAttempts
           == if config.retry.Some? then config.retry.value.maxAttempts.GetOr(DefaultMaxAttempts) else DefaultMaxAttempts;
  }

  /** Delivers a batch: an empty batch is refused; a template failure is
      reported without any send; otherwise the rendered message, whose subject
      comes from the first alert, is sent with retries. */
  method SendBatch(p: Provider, alerts: seq<Alert>, render: Result<string, string>, mailer: nat -> MailerReply, now: int)
    returns (r: Result<AlertSendResult, AlertError>, message: Option<MailMessage>, sends: nat, ghost sleeps: seq<int>)
    ensures alerts == [] ==> r == Failure(AlertError("No alerts to send", "UNKNOWN", p.config.toEmail, NoContext))
    ensures alerts != [] && render.Failure? ==>
              r == Failure(AlertError("Failed to render email template", alerts[0].alertType.Name(), p.config.toEmail, TextContext(render.error)))
    ensures alerts == [] || render.Failure? ==> message == None && sends == 0
    ensures alerts != [] && render.Success? ==>
              && message == Some(MailMessage(p.config.fromEmail, p.config.toEmail,
                                             GetSubject(alerts[0].severity.Name(), alerts[0].alertType.Name()), render.value))
              && RetryResult(p.retryConfig, p.config.toEmail, mailer, alerts[0].alertType.Name(), now, r, sends)
    ensures alerts == [] || render.Failure? ==> sleeps == []
    ensures alerts != [] && render.Success? ==> SleepLog(p.retryConfig, sends, sleeps)
  {
    if |alerts| == 0 {
      r := Failure(AlertError("No alerts to send", "UNKNOWN", p.config.toEmail, NoContext));
      message, sends, sleeps := None, 0, [];
      return;
    }
    var first := alerts[0];
    var subject := GetSubject(first.severity.Name(), first.alertType.Name());
    match render {
      case Failure(thrown) =>
        r := Failure(AlertError("Failed to render email template", first.alertType.Name(), p.config.toEmail, TextContext(thrown)));
        message, sends, sleeps := None, 0, [];
      case Success(html) =>
        message := Some(MailMessage(p.config.fromEmail, p.config.toEmail, subject, html));
        r, sends, sleeps := SendWithRetry(p.retryConfig, p.config.toEmail, mailer, first.alertType.Name(), now);
    }
  }

  /** `send(alert)`: the batch of that one alert. */
  method Send(p: Provider, alert: Alert, render: Result<string, string>, mailer: nat -> MailerReply, now: int)
    returns (r: Result<AlertSendResult, AlertError>, message: Option<MailMessage>, sends: nat, ghost sleeps: seq<int>)
    ensures render.Failure? ==>
              && r == Failure(AlertError("Failed to render email template", alert.alertType.Name(), p.config.toEmail, TextContext(render.error)))
              && message == None && sends == 0
    ensures render.Success? ==>
              && message == Some(MailMessage(p.config.fromEmail, p.config.toEmail,
                                             GetSubject(alert.severity.Name(), alert.alertType.Name()), render.value))
              && RetryResult(p.retryConfig, p.config.toEmail, mailer, alert.alertType.Name(), now, r, sends)
    ensures render.Failure? ==> sleeps == []
    ensures render.Success? ==> SleepLog(p.retryConfig, sends, sleeps)
  {
    r, message, sends, sleeps := SendBatch(p, [alert], render, mailer, now);
  }
}
