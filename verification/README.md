# Billing service: model and proofs

This project models a billing service in Dafny and proves what its documentation and tests
rely on. It covers two parts.

**The billing saga.** Quotes and payments are objects whose status changes in place
(`Entities`), kept in repositories that either hand out the stored object or encode it as a row
and build a copy (`Repositories`, `Rows`, `Tables`, `Decimals`). Use cases load, change, save and
publish in a fixed order (`UseCases`, over the ports of `Wiring` and the publishers of
`Publishers`), routes count settlements (`Routes`), and a worker consumes the queue to which the
service itself publishes (`Worker`). `Saga` states what each use case does as a value: the list of
single writes it makes. Every class method is proved to make exactly those writes, and the
results about runs are proved on the list form, where a crash is a prefix of the list:
`CrashSafety`, `Stranding`, `Lags`, `Losses`, `Aliasing`, `Lifecycle`, `Settlement`, `Conservation`,
`Deliveries`, `Redeliveries`; `Commands` says what each command does and `Messages` what it tells others,
in plain values; `Instances` holds concrete runs. `Application` builds the service and executes whole
command sequences. Runs are over either kind of repository unless a row says otherwise; crashes are
those of the SQL service, since memory does not outlive the process.

**The env-file normaliser.** `prepare_env` loads a `.env` file, checks and rewrites its values
through a sequence of in-place changes, and writes it back. `EnvFile` is the line format and its
round trip, `EnvRules` the rules and their order, `ListSettings` and `Json` the list fields,
`PrepareEnv` the whole script as a function of the file's text, `EnvMeaning`, `EnvNumbers`,
`EnvSettings` and `PreparedFile` what files say before and after, by the names in them,
`DeployScript` the loops and the changing dictionary, proved against it.

## What was found

- The service's top-level documentation calls the worker's consumption idempotent. It is, for
  completed deliveries. A delivery that dies after its quote is saved and before its event is
  marked makes a second quote when it is repeated, and only then
  (`Deliveries.RedeliveryAfterCrash`, with an instance in `RedeliveryCanMakeTwoQuotes`). Over whole
  runs the extra quotes are exactly those deaths (`Redeliveries.QuotesThroughDeaths`).
- In-memory and SQL repositories are not interchangeable: they differ exactly when a gateway call
  fails during the approval of a created quote (`Aliasing.RepositoriesAgreeExactly`, with an
  instance in `RepositoriesCanDiffer`). The in-memory quote is then approved for good without a
  payment, and replaying the published log no longer gives the stored statuses
  (`Lifecycle.LogRebuildsStore`, `Conservation.ApprovedQuotesArePaid`).
- A crash between the two saves of an approval strands the quote for ever
  (`Stranding.StrandedExactly`, `StrandedForever`, with an instance in `Instances.CrashCanStrand`).
- After a crash, a stored status may lack its event: exactly the one the dying command had saved and
  not yet published (`Lags.LagsExactly`, with an instance in `Instances.CrashCanSilence`). Such an
  event is lost for good; only a lost failure is repaired, by failing the payment by hand again
  (`Losses.LostExactly`, `LostForGood`).
- The `failed` counter is not the number of failed payments: failing a failed payment by hand
  counts and publishes again. The difference is exactly the number of such repetitions
  (`Settlement.CountersAgree`, with an instance in `Instances.FailedCanExceed`).
- `REQUIRED_POSITIVE_INTEGER_FIELDS` are not required by the code: a file is as good without them
  (`EnvRules.CalledRequiredIsOptional`, with a file in `ExampleFile.ExampleIsPrepared`). A prepared
  file holds such a field exactly when the original did (`EnvRules.CalledRequiredIsKept`).
- Text that has a high surrogate before a low one does not survive JSON printing; no text read
  from a file has such a pair, so list fields do survive (`Json.DumpsRoundTrip`,
  `Json.LoadedTextsAreJoined`).

## How the outside world appears

`uuid4` is a counter: every draw is new, and an id sent by a caller is either a drawn one or some
other text. The payment provider's answers are arbitrary values given with the command; the fake
gateway is the case of a particular answer and of a refused search. A message body is an arbitrary
value: not an event, or fields that may be missing. Upper-casing, digits of other scripts, Python's
rendering of non-text JSON values and the validity of the two URLs are parameters (`EnvRules.Host`);
what is assumed of the first three is written out in `EnvRules.Sound` and `ListSettings.Faithful`, and
can be had (`EnvRules.AsciiHostIsSound`).
`journal`, which keeps every write and the whole store right after it, and the other ghost fields exist
for the proofs only. `history` is everything ever published; `origin` remembers which quote was made for which event.

## Model

| member | source | states |
|---|---|---|
| `CrashSafety.CrashRunsAreSafe` | src/application/use_cases.py:30-164 | However any commands are cut short after any single save, publish or mark: every published event's claim is stored, stored payments belong to approved quotes with the same order and total, no quote has two payments, a confirmation is unique and never alongside a failure, and a processed event id has a stored quote that was announced |
| `CrashSafety.PublishedClaimsPersist` | src/application/use_cases.py:30-164 | Through every later crash or completion the history only grows and what was claimed stays stored |
| `CrashSafety.IdentitiesPersist` | src/application/use_cases.py:30-164 | Over rows, through every later crash or completion, nothing is deleted and only statuses change, so orders, items, totals and preferences never do |
| `Aliasing.IdentitiesPersistInRuns` | src/application/use_cases.py:30-207 | The same for uninterrupted runs over either kind of repository |
| `Stranding.StrandedExactly` | src/application/use_cases.py:54-64 | A crash leaves an approved quote without a payment exactly when a successful approval of it dies after its first save |
| `Stranding.StrandedForever` | src/application/use_cases.py:54-64 | Nothing the service does later ever repairs such a quote |
| `Instances.CrashCanStrand` | src/application/use_cases.py:54-64 | A concrete run that strands a quote: it is created, and its approval dies after the first save |
| `Lags.LagsExactly` | src/application/use_cases.py:30-164 | After a crash a stored quote or payment status lacks its event exactly when this very command saved it and died before publishing it, or when it lacked it before |
| `Instances.CrashCanSilence` | src/application/use_cases.py:30-38 | A concrete run after which a stored status has no event: a creation dies between its save and its announcement |
| `Losses.LostExactly` | src/application/use_cases.py:30-164 | Over whole runs cut short anywhere: the event of a status taken on is missing if and only if some attempt died between that save and its announcement and, if it is a failure, no completed manual failure of that payment has followed |
| `Losses.LostForGood` | src/application/use_cases.py:30-164 | Through every later crash or completion a lost event stays lost, unless it is a failure and the payment is failed by hand again |
| `Aliasing.RepositoriesAgreeExactly` | src/infrastructure/repositories/in_memory_billing_repositories.py:6-43 | For every command sequence, rejected commands included, live-object and row-copying repositories end in the same store if and only if no approval of a created quote meets a failing gateway; then all results agree too |
| `Aliasing.RepositoriesCanDiffer` | src/application/use_cases.py:54-58 | A concrete run in which they end differently: the in-memory quote stays approved after a failed gateway call |
| `Aliasing.RunsAreSafe` | src/application/use_cases.py:30-207 | Uninterrupted runs keep the safety invariant over either kind of repository |
| `Lifecycle.TracesAreLifecycles` | src/domain/payment.py:82-176 | In every uninterrupted run over either kind of repository the events about a quote form CREATED (APPROVED PREFERENCE (CONFIRMED or FAILED*))?, all about one payment |
| `Lifecycle.ProviderFailuresComeOnce` | src/application/use_cases.py:118-164 | Over either kind: if failures come only from provider statuses, a trace with a failure is exactly created, approved, preference, failed |
| `Lifecycle.RunsStayInStep` | src/application/use_cases.py:30-164 | Over either kind: the stored status of every quote and payment is the one its published events lead to, except that an approval failed at the gateway may show in memory on a quote whose events stop at its creation |
| `Lifecycle.LogRebuildsStore` | src/application/use_cases.py:30-164 | Folding the published history gives exactly the stored statuses of all quotes and payments if and only if rows are stored or no approval of a created quote met a failing gateway |
| `Conservation.MoneyIsConserved` | src/application/use_cases.py:30-164 | Over rows, after any crashes, per currency: approved quote totals equal payment totals plus the totals of stranded quotes |
| `Conservation.RunsBalance` | src/application/use_cases.py:30-207 | The same balance in uninterrupted runs over either kind of repository |
| `Conservation.PaymentsAddUpToApprovedQuotes` | src/application/use_cases.py:30-164 | Over either kind, per currency: pending, confirmed and failed payments and stranded quotes add up to the approved quotes; nothing is stranded over rows or while the gateway answers |
| `Conservation.ApprovedQuotesArePaid` | src/application/use_cases.py:54-64 | Every approved quote has a payment if and only if rows are stored or no approval of a created quote met a failing gateway |
| `Settlement.CountersAgree` | src/presentation/api/routes/billing_routes.py:196-321 | Over either kind: the confirmed counter equals the PAYMENT_CONFIRMED events and the confirmed payments; the failed counter equals the PAYMENT_FAILED events and exceeds the failed payments by exactly the repeated manual failures |
| `Instances.FailedCanExceed` | src/presentation/api/routes/billing_routes.py:220-242 | A concrete run in which the failed counter exceeds the failed payments by one |
| `Settlement.FirstDecisiveWins` | src/application/use_cases.py:118-164 | Over either kind, any sequence of provider statuses over a pending payment has exactly the effect of its first approved or rejected word, with one terminal event, or none if there is none |
| `Settlement.SyncConfirmsSoundly` | src/application/use_cases.py:188-207 | A payment confirmed by a sync had exactly one record with its order's reference, for its quote's amount as a number and its currency, and the record's status says approved or accredited |
| `Settlement.SyncIgnoresOrderAndStrangers` | src/application/use_cases.py:188-207 | Reordering the provider's records, or adding or removing records of other orders, changes neither the writes nor the result, error kind included |
| `Deliveries.QueueDrains` | src/infrastructure/messaging/rabbitmq_blocking_worker.py:45-54 | Left to itself the queue drains although announcements come back; deliveries are the initial messages plus the quotes made; quotes made are the distinct acceptable unprocessed event ids |
| `Deliveries.LiveQueueLosesNothing` | src/infrastructure/messaging/rabbitmq_blocking_worker.py:37-54 | While others publish to the queue: at any moment, what was handled and what is queued come to what handling the initial queue and all arrivals would, wherever announcements stand |
| `Deliveries.ServedArrivals` | src/infrastructure/messaging/rabbitmq_blocking_worker.py:37-54 | Once the queue is empty, one quote was made for each distinct acceptable unprocessed event id among all messages queued or arrived |
| `Deliveries.StreamIsItsReduction` | src/application/event_handlers.py:29-47 | A stream with repeats, unknown types and bad messages has the effect of the first acceptable OS_OPENED of each event id |
| `Deliveries.RedeliveryAfterCrash` | src/application/event_handlers.py:39-46 | A delivery repeated after a crash makes a second quote exactly when it died after the quote was saved and before the event was marked |
| `Deliveries.RedeliveryCanMakeTwoQuotes` | src/application/event_handlers.py:39-46 | A concrete message for which it does |
| `Redeliveries.QuotesThroughDeaths` | src/infrastructure/messaging/rabbitmq_blocking_worker.py:37-54 | While others publish and the worker dies in the middle of any deliveries: at any moment, quotes made and still to be made are the distinct acceptable unprocessed ids, plus one for each death between a quote's save and its message's mark |
| `Redeliveries.ServedThroughDeaths` | src/infrastructure/messaging/rabbitmq_blocking_worker.py:37-54 | Once the queue is empty, the same count for the quotes made, and exactly those ids are marked |
| `Commands.CreateQuoteDoes` | src/application/use_cases.py:30-38 | For every safe store: a quote is created exactly when the order has a character that is no blank, there are items and the amount is positive; it carries that order, those items, that amount digit by digit and BRL, under an unused id, and is announced once; otherwise the first of these three is the error and nothing changes |
| `Commands.DeliverDoes` | src/infrastructure/messaging/rabbitmq_blocking_worker.py:45-54 | A delivered message, by the name of its type: refused if incomplete, skipped if processed, ignored if it is no OS_OPENED, and otherwise one quote with its order and the configured items and amount, and a mark for its id; every refusal leaves the store as it was |
| `Commands.HandlingDoes` | src/application/event_handlers.py:29-47 | The same for the handler on any dictionary, with the error of each missing field |
| `Commands.ApproveQuoteDoes` | src/application/use_cases.py:54-64 | The whole new store and the result of an approval, for either kind of repository: the payment copies id, order and total, is pending, and has the gateway's preference; both events follow in order; each refusal has its error, and a failing gateway leaves the quote approved exactly over live objects |
| `Commands.ConfirmPaymentDoes` | src/application/use_cases.py:74-79 | Exactly a pending payment becomes confirmed, with one event about it; everything else stays |
| `Commands.FailPaymentDoes` | src/application/use_cases.py:89-94 | Exactly a stored payment that is not confirmed becomes failed, with one event that gives the reason; everything else stays |
| `Commands.ApplyStatusDoes` | src/application/use_cases.py:118-164 | In any case and padding: `approved` and `accredited` confirm a pending payment, the six rejected words fail it with the detail or the status as the reason, the two pending words change nothing, any other text is refused, and a settled payment stays, each with its own action |
| `Commands.SyncStatusDoes` | src/application/use_cases.py:188-207 | A sync applies the trimmed status and the detail of the only record of the order, complete, with an equal amount as a number and an equal currency; without one it changes nothing and has the error for what is missing |
| `Messages.ConfirmationTells` | src/infrastructure/messaging/rabbitmq_blocking_publisher.py:47-57 | A completed confirmation adds exactly one message: it is named PAYMENT_CONFIRMED, has the event's own id, the order as correlation id and in the payload, the quote, the payment, and nothing else; a refused one adds none |
| `Messages.FailureTells` | src/infrastructure/messaging/rabbitmq_blocking_publisher.py:47-57 | The same for a failure, named PAYMENT_FAILED, with its reason |
| `Messages.CreationTells` | src/infrastructure/messaging/rabbitmq_blocking_publisher.py:47-57 | The same for a creation, named QUOTE_CREATED |
| `Messages.ApprovalTells` | src/infrastructure/messaging/rabbitmq_blocking_publisher.py:47-57 | A completed approval adds two messages in this order, QUOTE_APPROVED and PAYMENT_PREFERENCE_CREATED, the second with the payment and its preference id; a refused one adds none |
| `Messages.StatusTells` | src/infrastructure/messaging/rabbitmq_blocking_publisher.py:47-57 | Applying a status adds the message of the settlement, if the payment was pending and the word approves or rejects, and none otherwise |
| `Messages.SyncTells` | src/infrastructure/messaging/rabbitmq_blocking_publisher.py:47-57 | A sync adds what applying the matching record's status adds, and nothing without such a record |
| `Messages.DeliveryTells` | src/infrastructure/messaging/rabbitmq_blocking_publisher.py:47-57 | A processed message adds one QUOTE_CREATED about the order it named; any other adds none |
| `Messages.EncodingLosesNothing` | src/domain/events.py:17-24 | Two events have the same message only if they are the same event |
| `Gateway.SearchSucceedsExactly` | src/infrastructure/payment/mercado_pago_checkout_adapter.py:80-148 | Every outcome of a search: it succeeds if and only if exactly one record has the reference, complete and equal in amount and currency; 404, 502, an unreadable amount and a missing reference each exactly in their own case, 409 in all others |
| `Gateway.PreferenceOutcome` | src/infrastructure/payment/mercado_pago_checkout_adapter.py:66-78 | Every outcome of asking for a preference: the trimmed id, the production address if there is one and the sandbox address otherwise, or the error for what is missing |
| `Decimals.SameNumberIsSameValue` | src/infrastructure/payment/mercado_pago_checkout_adapter.py:117-121 | Amounts are equal exactly when, counted in the smaller of their last places, they are equal whole numbers |
| `Gateway.StatusIgnoresOrderAndStrangers` | src/infrastructure/payment/mercado_pago_checkout_adapter.py:99-148 | The outcome depends only on how often each record with the payment's reference occurs |
| `Rows.QuoteRoundTrip` | src/infrastructure/repositories/sqlalchemy_billing_repositories.py:68-125 | Decoding an encoded quote row is the identity, its items going through JSON text |
| `Rows.PaymentRoundTrip` | src/infrastructure/repositories/sqlalchemy_billing_repositories.py:142-220 | Decoding an encoded payment row is the identity, its preference going through JSON text or `null` |
| `Application.QuoteLookupsAreStable` | src/infrastructure/repositories/in_memory_billing_repositories.py:19-23 | In memory, in every reachable state: the quote a lookup by order finds is found again after any further commands, the very same object, showing the state stored last |
| `Application.PaymentLookupsAreStable` | src/infrastructure/repositories/in_memory_billing_repositories.py:39-43 | The same for payments |
| `UseCases.CrashesAreOnTheWay` | src/application/use_cases.py:30-164 | Over rows, the whole store right after the k-th write of an executed command, as the objects held it, is what a crash after that write leaves |
| `Application.ExecuteAll` | src/application/use_cases.py:30-207 | Any sequence of commands on ports that have executed others ends in the store and with the results of the whole run; over rows every store on the way, after each single write, is consistent |
| `Application.StartAndExecute` | src/infrastructure/runtime.py:32-89 | A freshly built service, in memory or over SQL and the broker, executes any commands as the run says, and over SQL is consistent after every single write |
| `UseCases.CreateQuoteUseCase` | src/application/use_cases.py:30-38 | Makes exactly the planned writes in order, each the only change since the one before, ends in the planned store and returns the planned result, over either kind of repository; `Commands.CreateQuoteDoes` says what that is |
| `UseCases.ApproveQuoteUseCase` | src/application/use_cases.py:54-64 | The same for approval, including the in-place approval that a failing gateway leaves behind; see `Commands.ApproveQuoteDoes` |
| `UseCases.ConfirmPaymentUseCase` | src/application/use_cases.py:74-79 | The same for confirmation; see `Commands.ConfirmPaymentDoes` |
| `UseCases.FailPaymentUseCase` | src/application/use_cases.py:89-94 | The same for failure; see `Commands.FailPaymentDoes` |
| `UseCases.ApplyPaymentStatusUseCase` | src/application/use_cases.py:118-164 | The same for a provider status: always saved, published only when the payment settles; see `Commands.ApplyStatusDoes` |
| `UseCases.SyncPaymentStatusUseCase` | src/application/use_cases.py:188-207 | The same for looking the payment up at the provider and applying what was found; see `Commands.SyncStatusDoes` |
| `Application.Execute` | src/application/use_cases.py:30-207 | Each command, run by its use case or handler, makes exactly the planned writes, moves no stored entry, and over the broker adds exactly the messages of the events published by it |
| `Worker.BillingIntegrationEventHandler.Handle` | src/application/event_handlers.py:29-47 | For any dictionary, validated or not: raise on a missing field, skip, ignore, or create and then mark; exactly the planned writes, and one message back on the queue per created quote |
| `Worker.RabbitMqBlockingEventWorker.HandleDelivery` | src/infrastructure/messaging/rabbitmq_blocking_worker.py:45-54 | Acknowledged exactly when handling succeeds; in either case the message is gone, and only an announcement is queued |
| `Worker.RabbitMqBlockingEventWorker.Serve` | src/infrastructure/messaging/rabbitmq_blocking_worker.py:37-43 | The worker as it runs, through arrivals, deliveries and waits in any order: store and queue are those of `LiveQueueLosesNothing` |
| `Worker.RabbitMqBlockingEventWorker.Consume` | src/infrastructure/messaging/rabbitmq_blocking_worker.py:45-54 | With nothing arriving, deliveries end with an empty queue, in the state and after the number that `QueueDrains` describes |
| `PrepareEnv.PreparingIsIdempotent` | scripts/deploy/prepare_env.py:228-252 | For every file the script accepts, running it on its own output succeeds and reproduces the file exactly |
| `PrepareEnv.PreparingKeepsLines` | scripts/deploy/prepare_env.py:214-252 | Line count and order, comments, blank lines and keys are kept; each value becomes what its own rule makes of it |
| `PrepareEnv.PreparedValuesAreRead` | scripts/deploy/render_k8s_manifests.py:51-59 | From the prepared file the renderer's parser reads exactly the normalised values, for exactly the original keys |
| `PrepareEnv.PreparedListsAreTheSame` | src/infrastructure/config/settings.py:13-24 | The settings read the same non-empty lists of origins and hosts before and after |
| `PreparedFile.RefusedExactly` | scripts/deploy/prepare_env.py:228-252 | A file is refused for the first of the 28 things looked for that is wrong with it, named by its settings, words, numbers and lists, and prepared exactly when nothing is |
| `PreparedFile.PreparedNumbersAreTheSame` | scripts/deploy/prepare_env.py:88-126 | Each of the five numbers of a prepared file is the number of the original, positive and written canonically; a blank one stays blank, or becomes 587 for SMTP_PORT and 10 for SMTP_TIMEOUT_SECONDS |
| `PreparedFile.PreparedWordsAreTheSame` | scripts/deploy/prepare_env.py:80-114 | Environment and switches keep their word up to case; a blank optional switch becomes false |
| `PreparedFile.PreparedRestIsTheSame` | scripts/deploy/prepare_env.py:185-252 | The provider is upper-cased or SMTP, the log level is upper-cased with ASCII letters made capitals, and every setting without a rule stays letter by letter |
| `EnvMeaning.LineMeans` | scripts/deploy/prepare_env.py:52-62 | A line that is no comment sets the trimmed text before its first `=` to the trimmed text after it; every other line is kept |
| `EnvNumbers.DigitsRead` | scripts/deploy/prepare_env.py:93-96 | Exactly digits with single underscores between them are read, as the number their ASCII digits denote |
| `EnvRules.RulesWorkIndependently` | scripts/deploy/prepare_env.py:228-252 | Applying the rules one after the other to a changing dictionary equals judging the original values by all rules at once, first complaint included |
| `EnvRules.NormalisingTwice` | scripts/deploy/prepare_env.py:228-252 | The normalised values are accepted again and normalise to themselves, also when the e-mail provider has no line |
| `EnvRules.CalledRequiredIsOptional` | scripts/deploy/prepare_env.py:88-92 | Values are accepted exactly when they are accepted without a field of `REQUIRED_POSITIVE_INTEGER_FIELDS` and the field is missing, blank or a positive integer |
| `EnvRules.CalledRequiredIsKept` | scripts/deploy/prepare_env.py:88-101 | Such a field is in the prepared values exactly when it was in the original, and holds something exactly when the original did |
| `ExampleFile.ExampleIsPrepared` | scripts/deploy/prepare_env.py:17-21 | A concrete file without any of the three fields: for every sound host the script accepts it if and only if its two ordinary URLs are valid |
| `EnvFile.RewrittenReadsBack` | scripts/deploy/prepare_env.py:46-64 | Loading a rewritten file gives the same entries line by line and the written values |
| `ListSettings.ListSettingsSurvive` | scripts/deploy/prepare_env.py:156-173 | The script accepts exactly what the settings parse to at least one item, the rewritten field parses to the same list, and rewriting again changes nothing |
| `ListSettings.PlainListsAreCutAtCommas` | src/infrastructure/config/settings.py:13-24 | A setting that is no JSON array is what stands between its commas, one that is an array of texts is those texts; parts are trimmed, blank ones dropped, in order |
| `Json.DumpsRoundTrip` | scripts/deploy/prepare_env.py:173 | The round trip is the identity if and only if no high surrogate stands before a low one |
| `DeployScript.PrepareEnvFile` | scripts/deploy/prepare_env.py:228-252 | The file becomes the prepared text when everything passes and is left alone otherwise |

## Supporting members

The steps, round trips and operations that the results above rest on.

| member | source | states |
|---|---|---|
| `CrashSafety.CrashKeepsSafe` | src/application/use_cases.py:30-164 | The inductive step of the above: any safe store, any command, any number of surviving writes |
| `CrashSafety.PlanIsAllowed` | src/application/use_cases.py:30-164 | Every use case makes only writes that keep the store safe, each judged in the state the earlier ones left |
| `Saga.KindOf` | src/application/use_cases.py:30-207 | Whatever the command, its writes are none, or create-and-announce, or the four writes of an approval in order, or a settlement, or a plain resave |
| `Lags.CompletionNeverLags` | src/application/use_cases.py:30-164 | A completed command leaves no new stored status without its event |
| `Losses.StatusesStand` | src/domain/payment.py:94-164 | Through every later crash or completion a quote stays created or approved and a payment stays confirmed or failed, once it has become so |
| `Aliasing.AliasingStep` | src/application/use_cases.py:54-64 | The exact difference one command can make: the touched quote of a failed approval, nothing else |
| `Conservation.TotalsCount` | src/domain/payment.py:24-36 | What the totals count: one more quote or payment adds its value in its own currency and nothing in any other |
| `Conservation.PaymentsAreBacked` | src/domain/payment.py:127-135 | Over either kind every payment belongs to an approved quote of its own with equal order and total |
| `Settlement.StoredPaymentsAreReady` | src/application/use_cases.py:118-164 | Applying a status to a stored payment succeeds if and only if it is one of the ten supported words; the payment is searched by its quote's order |
| `Settlement.BumpsAreSettlements` | src/presentation/api/routes/billing_routes.py:196-321 | A route counts exactly when its command settles a payment, on the counter of the new status |
| `Deliveries.EnoughDeliveries` | src/infrastructure/messaging/rabbitmq_blocking_worker.py:37-54 | As many deliveries as the queue's load empty it |
| `Deliveries.QuotesPerId` | src/application/event_handlers.py:29-47 | A stream makes one quote per distinct wanted event id and marks exactly those ids |
| `Redeliveries.WithoutDeaths` | src/infrastructure/messaging/rabbitmq_blocking_worker.py:37-54 | Without deaths these runs are those of the live queue |
| `Deliveries.UndueIsQuiet` | src/application/event_handlers.py:33-37 | Repeated, ignored and malformed messages write nothing |
| `Deliveries.DueOpens` | src/application/event_handlers.py:38-47 | A due message makes one quote, announces it and is marked, in that order |
| `Deliveries.EchoIsPublished` | src/infrastructure/messaging/rabbitmq_blocking_publisher.py:33-57 | What returns to the queue is what the handler published |
| `Deliveries.OwnEventsAreValid` | src/infrastructure/messaging/event_contracts.py:18-38 | Every event the service makes passes validation and none asks for a quote |
| `Messages.MembersAre` | src/infrastructure/messaging/event_contracts.py:18-21 | The message of each kind of event: its literal name, its id, its order twice, and exactly the members the event has |
| `Gateway.ClassifyMeans` | src/application/use_cases.py:124-153 | The statuses the service takes as approved, rejected and pending are those words and no others, as relations on characters |
| `Gateway.CreateCheckoutPreference` | src/infrastructure/payment/mercado_pago_checkout_adapter.py:66-78 | A preference always has an id and an URL and refers to the order it was asked for |
| `Gateway.StatusIsSound` | src/infrastructure/payment/mercado_pago_checkout_adapter.py:80-148 | A status is accepted only from the single record with the payment's reference, with an equal number as its amount and an equal currency, and is its trimmed status |
| `Decimals.ValueLaws` | src/domain/payment.py:31-32 | The value of an amount: whole numbers are themselves, a zero more is a place more in the exponent, and the sign is a sign |
| `Decimals.NumbersAreRead` | src/infrastructure/repositories/sqlalchemy_billing_repositories.py:115-125 | Digits, decimal places, a power of ten and a sign are read as the number they denote |
| `Decimals.AmountsArePrintedPlainly` | src/infrastructure/repositories/sqlalchemy_billing_repositories.py:68-76 | An amount with decimal places is printed with its digits around the point, trailing zeros included |
| `Decimals.NotationIsPositional` | scripts/deploy/prepare_env.py:93-101 | Digits in front count ten times more for each digit that follows |
| `Words.StripIsTrimming` | src/application/use_cases.py:120 | There is one way to take the outer blanks away, and `strip` finds it |
| `Words.LowerStripSays` | src/application/use_cases.py:120 | `strip` and `lower` give a word exactly for the texts that spell it in any case, with any blanks around it |
| `Words.BlanksAre` | src/application/use_cases.py:120 | The blanks of Python, one by one |
| `Decimals.TextRoundTrip` | src/infrastructure/repositories/sqlalchemy_billing_repositories.py:73-123 | `Decimal(str(d))` is `d` for every finite decimal: sign, digits and exponent |
| `Decimals.PositiveIsPositive` | src/domain/payment.py:31-32 | The sign test accepts exactly the amounts whose value is above zero |
| `PyText.StripIsSlice` | src/application/use_cases.py:120 | `strip` removes exactly the blanks at both ends |
| `PyText.BlankIsEmptyStrip` | src/domain/payment.py:33-86 | A text is refused as blank exactly when stripping leaves nothing |
| `Billing.TypeNamesRoundTrip` | src/infrastructure/messaging/event_contracts.py:7-15 | The supported event type names are told apart when read back |
| `Rows.ItemsRoundTrip` | src/infrastructure/repositories/sqlalchemy_billing_repositories.py:72-122 | The items column: a JSON array of any texts is read back as it was |
| `Rows.PreferenceRoundTrip` | src/infrastructure/repositories/sqlalchemy_billing_repositories.py:143-219 | The preference column: an object with its three members, or `null`, is read back as it was |
| `Rows.RowsSpeakPlainly` | src/infrastructure/repositories/sqlalchemy_billing_repositories.py:68-76 | The columns of a stored row: the ids, the order, the currency, the literal status word, and a text that reads as the amount |
| `Rows.ColumnsSpeakPlainly` | src/infrastructure/repositories/sqlalchemy_billing_repositories.py:143-149 | The two JSON columns of plain texts, character by character |
| `Tables.UpsertIsUpdate` | src/infrastructure/repositories/sqlalchemy_billing_repositories.py:77-89 | Update-or-insert keeps one row per id and changes what is read under that id only |
| `Tables.GetReturnsLastSaved` | src/infrastructure/repositories/sqlalchemy_billing_repositories.py:68-100 | After any run of saves there is one row per id and reading returns the value saved last |
| `Tables.UpsertExtends` | src/infrastructure/repositories/in_memory_billing_repositories.py:10-11 | Saving what is stored already changes nothing, saving a new id adds an entry at the end |
| `Tables.FirstMatchStays` | src/infrastructure/repositories/in_memory_billing_repositories.py:19-23 | Entries added at the end never replace the first match |
| `Entities.UuidSource.Uuid4` | src/domain/payment.py:79 | Every drawn identifier is new |
| `Entities.Quote.Create` | src/domain/payment.py:82-92 | A new created quote and its announcement, or the first check that fails; nothing is drawn on failure |
| `Entities.Quote.Approve` | src/domain/payment.py:94-98 | Created becomes approved with one event; any other status raises and changes nothing |
| `Entities.Quote.Cancel` | src/domain/payment.py:100-106 | Any status but cancelled becomes cancelled with one event; a second cancellation raises |
| `Entities.Quote.Announce` | src/domain/payment.py:108-115 | An event names the quote and its order, under a fresh id |
| `Entities.Payment.FromQuote` | src/domain/payment.py:127-135 | Only an approved quote gives a payment, which copies its id, order and total |
| `Entities.Payment.CreatePreference` | src/domain/payment.py:137-150 | The payment becomes pending only if the gateway answers; otherwise it is unchanged |
| `Entities.Payment.Confirm` | src/domain/payment.py:152-156 | Only a pending payment is confirmed; otherwise nothing changes |
| `Entities.Payment.Fail` | src/domain/payment.py:158-164 | Any payment but a confirmed one fails, a failed one again; a confirmed one raises unchanged |
| `Entities.Payment.Announce` | src/domain/payment.py:166-176 | An event names the payment's quote and order, under a fresh id |
| `Repositories.InMemoryQuoteRepository.Save` | src/infrastructure/repositories/in_memory_billing_repositories.py:10-11 | The object itself is stored under its id; a known id keeps its place |
| `Repositories.InMemoryQuoteRepository.Get` | src/infrastructure/repositories/in_memory_billing_repositories.py:13-17 | The stored object itself, or a not-found error |
| `Repositories.InMemoryQuoteRepository.GetByServiceOrderId` | src/infrastructure/repositories/in_memory_billing_repositories.py:19-23 | The earliest inserted entry of the order, or nothing |
| `Repositories.InMemoryPaymentRepository.Save` | src/infrastructure/repositories/in_memory_billing_repositories.py:30-31 | The object itself is stored under its id; a known id keeps its place |
| `Repositories.InMemoryPaymentRepository.Get` | src/infrastructure/repositories/in_memory_billing_repositories.py:33-37 | The stored object itself, or a not-found error |
| `Repositories.InMemoryPaymentRepository.GetByServiceOrderId` | src/infrastructure/repositories/in_memory_billing_repositories.py:39-43 | The earliest inserted entry of the order, or nothing |
| `Repositories.SqlQuoteRepository.Save` | src/infrastructure/repositories/sqlalchemy_billing_repositories.py:68-89 | The row of the id holds the encoded quote; every other row is untouched |
| `Repositories.SqlQuoteRepository.Get` | src/infrastructure/repositories/sqlalchemy_billing_repositories.py:91-100 | A new object equal to what was saved last, or a not-found error |
| `Repositories.SqlPaymentRepository.Save` | src/infrastructure/repositories/sqlalchemy_billing_repositories.py:142-173 | The row of the id holds the encoded payment; every other row is untouched |
| `Repositories.SqlPaymentRepository.Get` | src/infrastructure/repositories/sqlalchemy_billing_repositories.py:175-186 | A new object equal to what was saved last, or a not-found error |
| `Repositories.QuoteTouched` | src/infrastructure/repositories/in_memory_billing_repositories.py:13-17 | Changing a quote shows in a repository exactly when the repository holds that very object |
| `Repositories.PaymentTouched` | src/infrastructure/repositories/in_memory_billing_repositories.py:33-37 | Changing a payment shows in a repository exactly when the repository holds that very object |
| `Publishers.InMemoryEventPublisher.Publish` | src/infrastructure/messaging/in_memory_event_publisher.py:12-14 | Events and messages stay in step; drained plus pending messages are the encoded history |
| `Publishers.InMemoryEventPublisher.PublishedMessages` | src/infrastructure/messaging/in_memory_event_publisher.py:16-17 | The pending messages complete what was drained to the whole history, in order |
| `Publishers.InMemoryEventPublisher.Drain` | src/infrastructure/messaging/in_memory_event_publisher.py:19-23 | Hands over each pending message once and loses none |
| `Publishers.RabbitMqBlockingEventPublisher.Publish` | src/infrastructure/messaging/rabbitmq_blocking_publisher.py:47-57 | The message goes to the back of the bound queue and onto the pending list; nothing is lost |
| `Publishers.RabbitMqBlockingEventPublisher.PublishedMessages` | src/infrastructure/messaging/rabbitmq_blocking_publisher.py:59-61 | The pending messages complete what was drained to the whole history |
| `Publishers.RabbitMqBlockingEventPublisher.Drain` | src/infrastructure/messaging/rabbitmq_blocking_publisher.py:63-67 | Hands over each pending message once and loses none |
| `Publishers.ProcessedEventRepository.IsProcessed` | src/infrastructure/repositories/processed_event_repositories.py:29-30 | True exactly for the marked ids |
| `Publishers.ProcessedEventRepository.MarkProcessed` | src/infrastructure/repositories/processed_event_repositories.py:32-35 | Adds the one id |
| `Wiring.QuoteChanged` | src/application/use_cases.py:55-58 | An in-place change of a quote is a change of the stored quotes exactly over live objects, and of nothing else |
| `Wiring.PaymentChanged` | src/application/use_cases.py:75-76 | An in-place change of a payment is a change of the stored payments exactly over live objects, and of nothing else |
| `Worker.RabbitMqBlockingEventWorker.Next` | src/infrastructure/messaging/rabbitmq_blocking_worker.py:45-54 | One delivery takes the head of the queue and lightens its load |
| `Routes.ConfirmPaymentRoute` | src/presentation/api/routes/billing_routes.py:196-217 | Executes the command, counts it as confirmed exactly on success, and answers with the payment or the error |
| `Routes.FailPaymentRoute` | src/presentation/api/routes/billing_routes.py:220-242 | Executes the command, counts it as failed exactly on success, and answers with the payment or the error |
| `Routes.SyncPaymentStatusRoute` | src/presentation/api/routes/billing_routes.py:245-287 | Executes the command, counts the action it reports, and answers with the payment or the error |
| `Routes.SimulatePaymentUpdateRoute` | src/presentation/api/routes/billing_routes.py:289-321 | Executes the command, counts the action it reports, and answers with the payment or the error |
| `PreparedFile.PreparedLine` | scripts/deploy/prepare_env.py:214-225 | A line that sets a name becomes the name, `=` and the prepared value; any other line stays |
| `PreparedFile.TextSays` | scripts/deploy/prepare_env.py:46-64 | What a text says under a name is what its last line that sets the name says |
| `EnvSettings.FirstComplaintIsReported` | scripts/deploy/prepare_env.py:228-250 | The same as `RefusedExactly` for loaded values |
| `EnvSettings.NumbersAreKept` | scripts/deploy/prepare_env.py:88-126 | The step of `PreparedNumbersAreTheSame` on values |
| `EnvSettings.WordsAreKept` | scripts/deploy/prepare_env.py:80-85 | Environment and logging switch keep their words |
| `EnvSettings.SwitchesAreKept` | scripts/deploy/prepare_env.py:104-114 | Optional switches keep their words, blank ones are off |
| `EnvSettings.CapitalsAreWritten` | scripts/deploy/prepare_env.py:185-190 | Provider and log level on values |
| `EnvSettings.OthersAreKept` | scripts/deploy/prepare_env.py:228-250 | Settings that no rule names are never written |
| `EnvSettings.ListsAreKept` | scripts/deploy/prepare_env.py:156-173 | List fields keep their lists |
| `EnvSettings.SameNames` | scripts/deploy/prepare_env.py:185-190 | The same settings are there before and after, and the provider always |
| `EnvMeaning.LastLineWins` | scripts/deploy/prepare_env.py:52-62 | The last line that sets a name decides |
| `EnvMeaning.LinesAreCut` | scripts/deploy/prepare_env.py:52 | A text is cut at each line break, CR LF counting as one |
| `EnvMeaning.BreaksAre` | scripts/deploy/prepare_env.py:52 | The line breaks, one by one |
| `EnvMeaning.LinesAreJoined` | scripts/deploy/prepare_env.py:225 | Lines are written one after the other, each with a line feed |
| `EnvNumbers.SignsRead` | scripts/deploy/prepare_env.py:93-96 | A sign in front is a sign |
| `EnvRules.WrittenIsNormal` | scripts/deploy/prepare_env.py:80-190 | Whatever a rule writes is in its own normal form, fits on one line and is not padded |
| `EnvRules.PlanIsOrderly` | scripts/deploy/prepare_env.py:228-250 | Each rule writes its own key only and looks at keys not yet written |
| `EnvRules.DigitsReadBack` | scripts/deploy/prepare_env.py:93-101 | `int(str(n))` is `n` |
| `EnvFile.LinesReadBack` | scripts/deploy/prepare_env.py:225 | Joined lines are split into the same lines |
| `EnvFile.RewrittenLine` | scripts/deploy/prepare_env.py:217-223 | A rewritten line is classified as before, with the same key and the new value |
| `EnvFile.KnownNamesRoundTrip` | scripts/deploy/prepare_env.py:12-38 | Every key name the script knows is recognised as itself |
| `ListSettings.TrimmedOfOne` | src/infrastructure/config/settings.py:23-24 | A part gives its text without the blanks around it, or nothing |
| `ListSettings.TrimmedOfConcat` | src/infrastructure/config/settings.py:23-24 | Parts are taken one by one, in order |
| `Json.PlainListsAreWrittenPlainly` | scripts/deploy/prepare_env.py:173 | Plain items are written in quotation marks between commas and brackets |
| `Json.ShortEscapesAre` | scripts/deploy/prepare_env.py:161-173 | The characters with a short escape, either way |
| `ListSettings.SplitIsUndone` | src/infrastructure/config/settings.py:24 | Joining the comma-separated parts gives back the text |
| `ListSettings.PartsHoldNoSeparator` | src/infrastructure/config/settings.py:24 | No part holds a comma, so the parts are the only possible ones |
| `ListSettings.ItemsAreNormal` | src/infrastructure/config/settings.py:16-24 | Items are never empty or padded and can be written as JSON without loss |
| `Json.DumpsReadsBack` | scripts/deploy/prepare_env.py:173 | Reading a printed list of texts, with either pair of separators, gives the list, up to surrogates that stood side by side |
| `Json.ObjectReadsBack` | src/infrastructure/repositories/sqlalchemy_billing_repositories.py:143-149 | Reading a printed dictionary of texts and nulls gives its members |
| `Json.LoadedTextsAreJoined` | scripts/deploy/prepare_env.py:161 | Texts read from a file never contain such a pair |
| `Json.DumpsIsPlain` | scripts/deploy/prepare_env.py:173 | A printed list is one line of printable ASCII in brackets |
| `DeployScript.LoadEnvFile` | scripts/deploy/prepare_env.py:46-64 | Entries and values of the file's lines, or a missing-file error |
| `DeployScript.ParseEnvFile` | scripts/deploy/render_k8s_manifests.py:51-59 | The second parser reads the same values as the first, and raises on a missing file |
| `DeployScript.RewriteEnvFile` | scripts/deploy/prepare_env.py:214-225 | Writes the rendered lines and nothing else |
| `DeployScript.RequireNonEmpty` | scripts/deploy/prepare_env.py:67-71 | The stripped value, or an error when it is missing or blank |
| `DeployScript.RequireAny` | scripts/deploy/prepare_env.py:74-77 | An error, with the keys and what they are for, exactly when all the given keys are missing or blank |
| `DeployScript.NormalizeBoolean` | scripts/deploy/prepare_env.py:80-85 | The rule of a required boolean, applied in place |
| `DeployScript.NormalizePositiveInteger` | scripts/deploy/prepare_env.py:88-101 | The rule of an integer: a missing one is left alone, others become positive and canonical |
| `DeployScript.NormalizeOptionalBoolean` | scripts/deploy/prepare_env.py:104-114 | The rule of an optional boolean: a blank line gets the default, a missing key nothing |
| `DeployScript.NormalizeOptionalPositiveInteger` | scripts/deploy/prepare_env.py:117-126 | The rule of an optional integer, likewise |
| `DeployScript.ValidateDatabaseUrl` | scripts/deploy/prepare_env.py:129-146 | The database URL's checks in order, without change |
| `DeployScript.ValidateAppBaseUrl` | scripts/deploy/prepare_env.py:149-153 | The base URL's checks, without change |
| `DeployScript.NormalizeListField` | scripts/deploy/prepare_env.py:156-173 | The rule of a list field: rewritten as a JSON array, or the first complaint |
| `DeployScript.ValidateEnvironment` | scripts/deploy/prepare_env.py:176-182 | The environment becomes one of the four lower-case names, or an error |
| `DeployScript.NormalizeEmailProvider` | scripts/deploy/prepare_env.py:185-190 | The provider becomes SMTP or NOOP, SMTP when missing or blank, or an error |
| `DeployScript.ValidateSecretContract` | scripts/deploy/prepare_env.py:193-206 | On any values: the three secrets are required in order, up to the first that is missing |
| `DeployScript.ValidateRequiredTextFields` | scripts/deploy/prepare_env.py:209-211 | The required fields are checked in order up to the first that is blank |
| `DeployScript.PrepareValues` | scripts/deploy/prepare_env.py:231-250 | The sequence of checks and in-place changes equals the plan of rules, first complaint included |

## Left out

- Overlapping requests: commands are executed one at a time, as the service has no row locks or versions.
- Publish or database failures inside a use case: the raised error leaves what a crash at that point leaves.
- Several workers on one queue, and redelivery for any other reason than the worker's death.
- `get_by_service_order_id` over SQL: its query has no order, so no particular row is promised.
- HTTP status mapping, authentication, request models, the internal-endpoint flag and the service-order routes: no state changes.
- Timestamps (`occurred_at`, `processed_at`) and the type and correlation id kept with a processed event: never read back.
- The Mercado Pago client, the outgoing request with `float(total.amount)`, idempotency keys and back URLs: foreign calls.
- pika connections, SQLAlchemy sessions and engines, migrations and column widths: only their effect is modelled.
- Non-finite stored amounts, and the wider syntax `Decimal` accepts (blanks, underscores, digits of other scripts): stored amounts are printed by `str`.
- Rows that `save` did not write: JSON items or preference members that are not texts read as a bad row, where the service renders them with `str`.
- Lower-casing beyond ASCII results: no other character can lead to one of the words compared with.
- Python's limits on the length of integers and the depth of nested JSON.
- Reading secret files, model validators and defaults of `Settings`, and dotenv parsing by pydantic.
- Manifest templating, image checks, health probes, command lines and exit codes of the scripts.
