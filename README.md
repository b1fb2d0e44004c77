# Alert dispatch and domain value objects, modelled in Dafny

This project models two packages of the `lec-internal` monorepo.

**Alert manager** (`packages/alert-manager`). An `AlertManager` keeps a
registry of alert providers keyed by name. It resolves which providers a call
targets, fans a batch of alerts out to them, and sorts the outcomes into
successful and failed deliveries. The call fails only when every target
failed. A process-wide singleton holds one manager.

There are two providers:

- The webhook (Discord) provider formats a batch as one message with one embed
  per alert, at most ten. It POSTs the message with a bounded retry loop, which
  honours Retry-After on a 429.
- The e-mail provider renders a batch into one HTML message and sends it. It
  retries only transient errors.

The shared vocabulary is modelled too: alert categories, severities, the
`AlertError` record (its code is always `ALERT_SEND_ERROR`) and the two
environment switches.

**Domain tools** (`packages/ddd-tools`). This part covers:

- `DateRange` predicates and durations;
- `LocalizedContent`, a mutable language-to-text map;
- `Address` validation and formatting;
- the paginated-query serialiser;
- `Command` metadata defaulting;
- entity equality by id.

The model takes each module's own form.

- Pure code becomes datatypes, functions and lemmas.
- The manager, the singleton and `LocalizedContent` are classes. Their methods
  change their fields under `modifies` clauses.
- Each retry loop, the dispatch loop and the query-string builder is a method
  with a loop (or successive updates). Each is proved against a
  specification function or predicate.
- The insertion-ordered JavaScript `Map` that the registry and the
  translations use is the `JsMap.OrderedMap` datatype.

External effects become parameters:

- **HTTP transport and mail client.** Oracles mapping an attempt number to that
  attempt's outcome.
- **Template renderer.** Its result is a parameter.
- **A provider's `sendBatch`, as the manager sees it.** An oracle per dispatch.
- **`verify`.** An oracle per provider.
- **Clock and generated uuid.** Parameters.
- **`JSON.stringify`.** An opaque function parameter.
- **Sleeps.** Recorded in a ghost log of requested delays.
- **Calls to a provider's `close`.** Recorded in a ghost log on the manager.

Points where the model follows the code rather than its prose description:

- The backoff for attempt `k` is `delays[k]` when the schedule has that
  entry, and 1000 ms otherwise. It is not the last entry of the schedule
  (`RetryPolicy.DelayAt`).
- A provider name requested twice is dispatched twice (`Manager.Lookup`).
- Falsy values follow JavaScript:
  - An empty `workerName` or an empty context string adds no embed field.
  - An empty Retry-After header falls back to the schedule.
  - An empty command id or a zero timestamp is replaced.
- The e-mail subject icons are the exact characters of the source file. They
  are UTF-8 emoji bytes that were decoded as Mac Roman; the CRITICAL and LOW
  icons begin with the private-use character U+F8FF. The webhook icons are
  the real emoji.

## Model

| member | source | states |
|---|---|---|
| AlertTypes.AdminEmail | packages/alert-manager/src/types/index.ts:61 | The admin address is "" exactly when the variable is unset or empty, otherwise its value |
| AlertTypes.AlertEnabled | packages/alert-manager/src/types/index.ts:67-70 | Alerting is on when the variable is unset; when set, it is on iff the value is exactly "true" |
| AlertTypes.AlertEnabledIsCaseSensitive | packages/alert-manager/src/types/index.ts:67-70 | "TRUE", "1" and "false" switch alerting off; unset and "true" switch it on |
| RetryPolicy.Resolve | packages/alert-manager/src/providers/discord-provider.ts:62-68 | Each retry setting is the configured one when given (0 kept), else 3 attempts and [1000, 2000, 4000] |
| RetryPolicy.DelayAt | packages/alert-manager/src/providers/discord-provider.ts:186 | The backoff is the scheduled entry for an in-range attempt and 1000 ms beyond the schedule |
| RetryPolicy.DefaultScheduleLookup | packages/alert-manager/src/providers/email-provider.ts:30-33 | With the default schedule, the first two waits are 1000 and 2000 ms; index 3 falls back to 1000 ms, not 4000 ms |
| Discord.NewProvider | packages/alert-manager/src/providers/discord-provider.ts:62-68 | The provider keeps its configuration. Its attempt budget is the configured maxAttempts when given (0 and negatives kept), else 3; its schedule is the configured delays when given, else [1000, 2000, 4000] |
| Discord.ConfiguredBudgetBoundsAttempts | packages/alert-manager/src/providers/discord-provider.ts:165 | A constructed provider makes at most its resolved budget of POSTs (3 when none is configured), and none, with a failure, when the configured budget is 0 or less |
| Discord.SeverityColorsDistinct | packages/alert-manager/src/providers/discord-provider.ts:34-39 | The four severities have four distinct colours, none of them the grey fallback |
| Discord.Truncate | packages/alert-manager/src/providers/discord-provider.ts:128-132 | Context has at most 1000 characters: short text is unchanged; longer text is its first 997 characters plus "...", exactly 1000 |
| Discord.EmbedFields | packages/alert-manager/src/providers/discord-provider.ts:113-139 | Fields are Type, then Severity, then Worker iff workerName is non-empty, then Context iff the context is truthy (its value the truncated text in a json code block), and no others |
| Discord.CreateEmbed | packages/alert-manager/src/providers/discord-provider.ts:109-151 | The title is "icon SEVERITY: TYPE", the colour follows the severity, and the description, timestamp and footer are the alert's message, its time and the fixed footer; the fields are those of EmbedFields |
| Discord.CreateEmbeds | packages/alert-manager/src/providers/discord-provider.ts:88 | One embed per alert, in order |
| Discord.CreatePayload | packages/alert-manager/src/providers/discord-provider.ts:153-159 | At most 10 embeds: exactly min(n, 10), a prefix of the input. The username defaults to "Alert Bot"; the avatar passes through |
| Discord.SendWithRetry | packages/alert-manager/src/providers/discord-provider.ts:161-237 | At most maxAttempts POSTs; the first 2xx returns at once with provider "discord"; each earlier failure waits Retry-After×1000 for a 429 carrying the header, else the scheduled delay. A failure on the last attempt returns the status/body or the exception with attempts = maxAttempts; maxAttempts ≤ 0 means no POST and the "after retries" error |
| Discord.RetryContractDeterministic | packages/alert-manager/src/providers/discord-provider.ts:165-236 | The retry contract fixes the result, the POST count and the delays uniquely |
| Discord.AllAttemptsFail | packages/alert-manager/src/providers/discord-provider.ts:195-224 | When every POST fails, exactly maxAttempts POSTs are made, the error reports that many attempts, and maxAttempts − 1 waits occur |
| Discord.SendBatch | packages/alert-manager/src/providers/discord-provider.ts:74-92 | An empty batch gives the error with type "UNKNOWN" and recipient "discord", with no POST; otherwise the payload of the batch's embeds is sent under the retry contract, typed by the first alert |
| Discord.Send | packages/alert-manager/src/providers/discord-provider.ts:70-72 | Sending one alert is sending the batch of that alert |
| Discord.Verify | packages/alert-manager/src/providers/discord-provider.ts:94-103 | The check succeeds iff the GET returns 2xx; an exception gives false |
| Email.NewProvider | packages/alert-manager/src/providers/email-provider.ts:47-54 | The provider keeps its configuration. Its attempt budget is the configured maxAttempts when given (0 and negatives kept), else 3; its schedule is the configured delays when given, else [1000, 2000, 4000] |
| Email.ConfiguredBudgetBoundsAttempts | packages/alert-manager/src/providers/email-provider.ts:117 | A constructed provider makes at most its resolved budget of sends (3 when none is configured), and none, with a failure, when the configured budget is 0 or less |
| Email.IsTransientError | packages/alert-manager/src/providers/email-provider.ts:178-189 | An error is transient iff its status is 429 or 503, or its lower-cased message contains "timeout", "network" or "econnrefused" |
| Email.RefusedConnectionIsTransient | packages/alert-manager/src/providers/email-provider.ts:183-188 | "connect ECONNREFUSED" is transient: matching ignores case |
| Email.UnavailableIsTransient | packages/alert-manager/src/providers/email-provider.ts:182 | Status 503 is transient whatever the message |
| Email.InvalidRecipientIsPermanent | packages/alert-manager/src/providers/email-provider.ts:178-189 | "invalid recipient" without a status is not transient |
| Email.GetSubject | packages/alert-manager/src/providers/email-provider.ts:167-176 | For any severity and type text, the subject is the severity's icon, a space, the severity, ": " and the type, each at its position |
| Email.SubjectIcons | packages/alert-manager/src/providers/email-provider.ts:167-176 | The four severities get four distinct icons, every other severity text that is not an inherited object property gets the MEDIUM icon, and every subject starts with its icon and ends with " SEVERITY: TYPE" |
| Email.SendWithRetry | packages/alert-manager/src/providers/email-provider.ts:112-165 | At most maxAttempts sends; only transient failures before the last attempt are retried, each after the scheduled delay or 1000 ms. A permanent or final failure returns attempts = attempt+1; a reply without an id gives "Invalid response from mailer", otherwise Ok carries the id; maxAttempts ≤ 0 sends nothing |
| Email.RetryContractDeterministic | packages/alert-manager/src/providers/email-provider.ts:117-164 | The retry contract fixes the result, the send count and the delays uniquely |
| Email.PermanentErrorNotRetried | packages/alert-manager/src/providers/email-provider.ts:125-136 | A permanent error on the first send stops after one send, with no wait and attempts = 1 |
| Email.SendBatch | packages/alert-manager/src/providers/email-provider.ts:60-102 | An empty batch gives the error with type "UNKNOWN" and recipient toEmail. A render failure gives an error with no send. Otherwise the message with the first alert's subject is sent under the retry contract |
| Email.Send | packages/alert-manager/src/providers/email-provider.ts:56-58 | Sending one alert is sending the batch of that alert |
| JsMap.FromPairsLastWins | packages/alert-manager/src/alert-manager.ts:96-99 | After inserting pairs in order, a key is present iff some pair has it, and it holds the value of the last such pair |
| JsMap.FromPairsKeyCount | packages/alert-manager/src/alert-manager.ts:96-99 | Inserting n pairs gives at most n keys, one per distinct key |
| Manager.ResolveThresholds | packages/alert-manager/src/alert-manager.ts:101-108 | Each threshold is the configured one when given (0 kept), else 5 failures and 10 minutes |
| Manager.DefaultSettings | packages/alert-manager/src/alert-manager.ts:37-45 | The defaults are 5, 10 and 300000 ms; a configured 0 is kept |
| Manager.RegistryFromProviders | packages/alert-manager/src/alert-manager.ts:95-99 | The registry holds exactly the provider names given, each mapped to the last provider of that name |
| Manager.AlertManager.constructor | packages/alert-manager/src/alert-manager.ts:95-111 | The registry results from inserting the providers in order; the thresholds and debounce window are resolved; nothing is closed |
| Manager.AlertManager.ProviderNames | packages/alert-manager/src/alert-manager.ts:183-185 | Each registered name appears once, and the names are exactly those for which a provider can be looked up |
| Manager.AlertManager.GetProvider | packages/alert-manager/src/alert-manager.ts:190-192 | The provider registered under the name, or none |
| Manager.AlertManager.AddProvider | packages/alert-manager/src/alert-manager.ts:197-200 | The provider is set under its name (replacing any earlier one, keeping its position); nothing is closed |
| Manager.AlertManager.RemoveProvider | packages/alert-manager/src/alert-manager.ts:205-214 | Returns true iff the name was registered. Then that provider is closed once and only that key is deleted; otherwise nothing changes |
| Manager.Targets | packages/alert-manager/src/alert-manager.ts:328-336 | With no names or an empty list, all registered providers in registration order; otherwise the lookup of the names |
| Manager.Lookup | packages/alert-manager/src/alert-manager.ts:333-335 | A lookup yields no more providers than names were requested |
| Manager.LookupAppend | packages/alert-manager/src/alert-manager.ts:333-335 | Looking up a concatenation of requests concatenates the results, so request order is kept |
| Manager.LookupMembers | packages/alert-manager/src/alert-manager.ts:333-335 | A provider is targeted iff some requested name is registered to it; unknown names are dropped |
| Manager.RepeatedNameDispatchedTwice | packages/alert-manager/src/alert-manager.ts:333-335 | A registered name requested twice targets its provider twice |
| Manager.RequestedText | packages/alert-manager/src/alert-manager.ts:251 | The error context names the requested names joined by ", ", or "all" when none were given |
| Manager.AlertManager.SendAlerts | packages/alert-manager/src/alert-manager.ts:229-302 | An empty batch gives "No alerts to send" (UNKNOWN, all) and an empty target list "No valid providers found" (recipient "none"), both before any provider is called. Otherwise each target is called once, the two lists hold its successes and failures up to order, and the result is "Failed to send alert to any provider", listing every failure, iff no target succeeded |
| Manager.AlertManager.SendAlert | packages/alert-manager/src/alert-manager.ts:219-224 | Sending one alert is sending the batch of that alert |
| Manager.Dispatch | packages/alert-manager/src/alert-manager.ts:256-272 | Each target is called once, in order; the receipts are exactly the successful outcomes and the failures exactly the failed ones, each named after its provider |
| Manager.PartitionCount | packages/alert-manager/src/alert-manager.ts:262-272 | Successful plus failed equals the number of outcomes |
| Manager.NoSuccessIffAllFailed | packages/alert-manager/src/alert-manager.ts:287-299 | No success at all iff every outcome is a failure |
| Manager.FailuresCarryNames | packages/alert-manager/src/alert-manager.ts:265-269 | Every failed entry carries the name of the dispatched provider that returned that error |
| Manager.DispatchAccountsForEveryTarget | packages/alert-manager/src/alert-manager.ts:256-301 | On success, successful.length + failed.length equals the number of dispatched targets, and successful is non-empty |
| Manager.AlertManager.VerifyProviders | packages/alert-manager/src/alert-manager.ts:307-316 | One entry per registered provider, in registration order, holding that provider's answer |
| Manager.AlertManager.Close | packages/alert-manager/src/alert-manager.ts:321-326 | Every registered provider is closed once, in order, and the registry is emptied |
| Manager.CloseTwice | packages/alert-manager/src/alert-manager.ts:321-326 | Closing twice closes each provider once |
| Manager.AlertManagerSingleton.constructor | packages/alert-manager/src/alert-manager.ts:87 | There is no instance at start |
| Manager.AlertManagerSingleton.Initialize | packages/alert-manager/src/alert-manager.ts:116-133 | An existing instance is returned unchanged whatever the configuration. Otherwise an empty provider list is refused, and any other configuration becomes a fresh instance |
| Manager.AlertManagerSingleton.GetInstance | packages/alert-manager/src/alert-manager.ts:138-145 | The instance, or the "not initialized" error iff there is none |
| Manager.AlertManagerSingleton.IsInitialized | packages/alert-manager/src/alert-manager.ts:150-152 | True iff getInstance would succeed |
| Manager.AlertManagerSingleton.Reset | packages/alert-manager/src/alert-manager.ts:157-162 | An existing instance is closed (all its providers, registry emptied) and forgotten |
| Text.ContainsIsSubstring | packages/alert-manager/src/providers/email-provider.ts:185-187 | The substring scan answers true iff the word occurs at some position |
| Text.ParseNatToString | packages/ddd-tools/src/application/paginated/utils.ts:4 | Decimal printing of a number reads back as that number |
| DateRanges.Create | packages/ddd-tools/src/domain/value-objects/date-range.vo.ts:41-54 | Creation fails iff from > to (from == to is accepted), keeping both ends; a failure is the VALUE_OBJECT_VALIDATION_ERROR with message "Value Object validation error" whose one sub-error is the InvalidDateRangeError class (errors.ts:112-120) |
| DateRanges.ContainsIsInclusion | packages/ddd-tools/src/domain/value-objects/date-range.vo.ts:64-68 | For a valid range, containment is inclusion of instants, both ends inclusive |
| DateRanges.ContainsReflexiveTransitive | packages/ddd-tools/src/domain/value-objects/date-range.vo.ts:64-68 | Every range contains itself, and containment composes |
| DateRanges.OverlapsIffPositiveIntersection | packages/ddd-tools/src/domain/value-objects/date-range.vo.ts:70-72 | Non-empty ranges overlap iff their intersection has positive length |
| DateRanges.OverlapsSymmetric | packages/ddd-tools/src/domain/value-objects/date-range.vo.ts:70-72 | Overlap does not depend on argument order |
| DateRanges.AdjacentAndPartialRanges | packages/ddd-tools/src/domain/value-objects/date-range.vo.ts:70-72 | Ranges that only touch do not overlap; partially intersecting ranges do |
| DateRanges.UnitTestScenarios | packages/ddd-tools/src/domain/value-objects/date-range.vo.spec.ts:4-128 | The unit tests' overlap and containment cases hold with UTC millisecond dates |
| DateRanges.CeilDiv | packages/ddd-tools/src/domain/value-objects/date-range.vo.ts:77-79 | The result q satisfies d(q−1) < n ≤ dq, i.e. it is the ceiling of n/d |
| DateRanges.CeilDivUnique | packages/ddd-tools/src/domain/value-objects/date-range.vo.ts:74-88 | The ceiling is the only integer with that property |
| DateRanges.DurationInHours | packages/ddd-tools/src/domain/value-objects/date-range.vo.ts:82-88 | The hour count is the ceiling of the length over 3600000 ms |
| DateRanges.DurationInDays | packages/ddd-tools/src/domain/value-objects/date-range.vo.ts:74-80 | The day count is the ceiling of the length over 86400000 ms |
| DateRanges.DurationBounds | packages/ddd-tools/src/domain/value-objects/date-range.vo.ts:74-88 | A valid range has non-negative durations, 0 when from == to, and 1 for a one-millisecond range |
| Localized.InvalidCodes | packages/ddd-tools/src/domain/value-objects/localized-content.ts:6-17 | The rejected codes are all too short, and there are none iff every code has at least 2 characters |
| Localized.Create | packages/ddd-tools/src/domain/value-objects/localized-content.ts:93-103 | Creation succeeds iff every code has at least 2 characters, giving a fresh, well-formed content of exactly those entries; otherwise the bad codes are reported |
| Localized.LocalizedContent.constructor | packages/ddd-tools/src/domain/value-objects/localized-content.ts:33-36 | The map is the props' entries inserted in order |
| Localized.LocalizedContent.Snapshot | packages/ddd-tools/src/domain/value-objects/localized-content.ts:38-42 | The snapshot has exactly the stored languages and their texts |
| Localized.LocalizedContent.GetLanguages | packages/ddd-tools/src/domain/value-objects/localized-content.ts:44-46 | Every stored language once, and no other |
| Localized.LocalizedContent.GetTranslation | packages/ddd-tools/src/domain/value-objects/localized-content.ts:48-50 | The stored text iff the language is present |
| Localized.LocalizedContent.HasTranslation | packages/ddd-tools/src/domain/value-objects/localized-content.ts:60-62 | True iff the language has a stored text, which for a well-formed map is iff it appears in the key order |
| Localized.LocalizedContent.GetOrFallback | packages/ddd-tools/src/domain/value-objects/localized-content.ts:52-58 | The language's entry, else the fallback's entry, else "" |
| Localized.PickIsStoredOrEmpty | packages/ddd-tools/src/domain/value-objects/localized-content.ts:52-58 | The fallback lookup returns a stored text or "", never anything else |
| Localized.LocalizedContent.AddTranslation | packages/ddd-tools/src/domain/value-objects/localized-content.ts:64-81 | A code shorter than 2 characters is refused and nothing changes. Otherwise only that language is set; reading it back gives the text, and well-formedness is kept |
| Localized.SetThenGet | packages/ddd-tools/src/domain/value-objects/localized-content.ts:78-80 | After a set, the language reads back the new text and every other language is unchanged |
| Localized.LocalizedContent.RemoveTranslation | packages/ddd-tools/src/domain/value-objects/localized-content.ts:83-91 | Fails iff the language is absent, and then nothing changes. Otherwise only that language is deleted, after which it is absent |
| Addresses.Issues | packages/ddd-tools/src/domain/value-objects/address.vo.ts:6-11 | A field's "required" message is reported iff that field is empty; there are none iff all four are filled |
| Addresses.Create | packages/ddd-tools/src/domain/value-objects/address.vo.ts:50-60 | Creation succeeds iff street, city, country and postal code are all non-empty; otherwise the error lists the issues and no address exists |
| Addresses.Snapshot | packages/ddd-tools/src/domain/value-objects/address.vo.ts:41-48 | The snapshot holds exactly the four fields |
| Addresses.SnapshotRoundTrip | packages/ddd-tools/src/domain/value-objects/address.vo.ts:41-60 | Creating again from a created address's snapshot gives the same address |
| Addresses.FillingFieldRemovesIssue | packages/ddd-tools/src/domain/value-objects/address.vo.ts:6-11 | Filling in the street removes exactly its issue, if it had one |
| Addresses.ToString | packages/ddd-tools/src/domain/value-objects/address.vo.ts:62-64 | The line is street, ", ", postal code, " ", city, ", ", country, each at its position, with length the four fields plus 5 |
| Addresses.ToStringRecoversFields | packages/ddd-tools/src/domain/value-objects/address.vo.ts:62-64 | Two addresses with fields of equal lengths print the same line only when they are the same address |
| Pagination.OrderBySegment | packages/ddd-tools/src/application/paginated/utils.ts:6-8 | The sort segment is present iff the sort list is non-empty |
| Pagination.FiltersSegment | packages/ddd-tools/src/application/paginated/utils.ts:10-12 | The filter segment is present iff the filter list is non-empty |
| Pagination.SearchSegment | packages/ddd-tools/src/application/paginated/utils.ts:14-16 | The search segment is present iff the search text is non-empty, and then holds it verbatim |
| Pagination.ToQueryString | packages/ddd-tools/src/application/paginated/utils.ts:3-19 | The string is page/limit, then orderBy, filters and search, in that order |
| Pagination.PrefixAndSuffix | packages/ddd-tools/src/application/paginated/utils.ts:3-19 | The string always starts with "page=P&limit=L", and a non-empty search ends it unencoded |
| Pagination.PlainQuery | packages/ddd-tools/src/application/paginated/utils.ts:3-19 | Empty sort, no filters and an empty search give just "page=P&limit=L" |
| Pagination.PageReadBack | packages/ddd-tools/src/application/paginated/utils.ts:4 | A non-negative page's digits follow "page=", end at "&", and parse back to the page |
| Pagination.DistinctPagesDistinctStrings | packages/ddd-tools/src/application/paginated/utils.ts:4 | Different non-negative pages give different query strings |
| Commands.NewCommand | packages/ddd-tools/src/application/command.base.ts:35-42 | The id is used unless missing or "" (then the uuid); the executor is used unless missing (then "anonymous"); the timestamp is used unless missing or 0 (then now); userId passes through, missing included |
| Commands.RebuildRoundTrip | packages/ddd-tools/src/application/command.base.ts:35-42 | Rebuilding a command from its own id and metadata gives it back when neither is falsy |
| Commands.FalsyValuesAreReplaced | packages/ddd-tools/src/application/command.base.ts:36-39 | An empty id and a zero timestamp are replaced by the uuid and the current time |
| Entities.EqualsIffSameId | packages/ddd-tools/src/domain/entity.ts:8-10 | A missing argument is never equal; otherwise equality holds iff the ids are identical |
| Entities.EqualsIsEquivalence | packages/ddd-tools/src/domain/entity.ts:9 | Equality by id is reflexive, symmetric and transitive |
| Entities.EqualsIgnoresProps | packages/ddd-tools/src/domain/entity.ts:8-10 | Entities with the same id are equal whatever their other properties; a string id never equals a numeric one |

## Left out

- Real I/O: `fetch`, the Nodemailer client and the e-mail template renderer. Each is an oracle or a parameter: a per-attempt HTTP outcome, a per-send mailer reply, a render result.
- Real waiting: only the requested delays are kept, in a ghost log.
- `console` logging: it has no effect on results.
- `Promise.all` concurrency in `sendAlerts`: providers are dispatched one after another. Completion order is unspecified, so the successful and failed lists and the failure context are stated up to order, as multisets.
- The clock (`Date.now()`, `new Date()`) and uuid generation: they are parameters. ISO-8601 formatting of the embed timestamp is not modelled; the embed carries the millisecond value.
- `JSON.stringify`: an opaque function, for the embed context, the POST body and the query-string segments.
- `Number.parseInt` on a malformed Retry-After header (NaN): the header is an optional natural number of seconds, and an empty header counts as absent.
- Discord.Verify: models the answer of the GET only. The manager receives each provider's `verify` answer as a parameter. The e-mail provider's `verify` and `close` delegate to the mail client, which is not part of this model. The webhook provider's `close` does nothing.
- The e-mail provider's "No valid alerts to send" branch (email-provider.ts:74-76) is unreachable once the batch is known to be non-empty, so the model has no such path.
- Manager.AlertManager.AddProvider: `close` is not called on a provider that is replaced, because the source does not call it either. The ghost close log is therefore unchanged.
- Manager.AlertManager.SendAlerts: states the two result lists as multisets rather than sequences, because under concurrency their order is the completion order.
- String lengths count Dafny characters, not UTF-16 code units. They differ only for text outside the Basic Multilingual Plane: context truncation and the 2-character language-code minimum.
- Email.SubjectIcons, Email.SubjectIcon, Discord.SeverityIcon, Discord.SeverityColor: properties inherited from `Object.prototype` are not modelled. The source looks a severity up in an object literal with `??` as fallback (email-provider.ts:168-174, discord-provider.ts:110-111). A severity text such as "constructor", "toString" or "__proto__" therefore finds an inherited function or object instead of the fallback. The model gives those texts the fallback icon and colour.
- Discord.SendWithRetry, Email.SendWithRetry: `maxAttempts` is an integer. In the source a fractional value such as 2.5 makes 3 attempts, waits after the third, and reports attempts = 2.5 in the "after retries" error. Infinity retries forever, and NaN makes no attempt (discord-provider.ts:165,197,213; email-provider.ts:117,128).
- Manager.AlertManager.SendAlerts: every provider's `sendBatch` is written to resolve with a result. In the source, a `sendBatch` that rejects makes `sendAlerts` reject, because the `Promise.all` at alert-manager.ts:262-272 has no catch. The webhook provider builds its embeds and payload (discord-provider.ts:88-89) outside its try block. An exception there, for instance from `JSON.stringify` on an alert's context, rejects in the same way.
- Pagination.PageReadBack: a page is an integer below 10^21. From 10^21 on, JavaScript prints numbers in exponent form ("1e+21"), so the query string no longer holds the page's decimal digits (utils.ts:4). The model prints every natural number in decimal.
- Email.IsTransientError: `toLowerCase` is modelled for ASCII letters only. All three transient markers are ASCII words, but JavaScript also lowers some non-ASCII letters to ASCII ones (the Kelvin sign U+212A becomes "k"). So a message spelling "NETWORK" with the Kelvin sign is transient in the source and not in the model.
- `DateRange.startSameDayAs`: it depends on the local time zone's calendar.
- `Math.ceil` on floating-point division: durations are integer ceiling division on whole milliseconds.
- Zod internals: the format of validation issues is not modelled. Address errors list the missing fields' messages, and LocalizedContent errors list the rejected codes.
- The always-successful `z.string()` check on a translation's text (localized-content.ts:73-76) is left out, so the model has no error path for it.
- The order of `Object.entries` on a props record: the record is given as its entries, in the order JavaScript would list them.
- Numeric entity ids are integers; NaN and fractional ids are not modelled.
- Query-string page and limit are integers; fractional numbers are not modelled.
- NestJS wiring, the failure detector, the documentation site, re-export files and the boilerplate error, DTO and repository files: they contain no logic of the two cores.
