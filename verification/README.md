# nzbdav provider failover and usage statistics, modelled in Dafny

This project models the part of nzbdav that spreads usenet (NNTP) requests over
several configured providers. It also models the part that reports how those
providers were used. It has three pieces:

- **The multi-provider client** (`provider_order.dfy`, `failover.dfy`,
  `multi_provider_client.dfy`).
  - For every call it drops `Disabled` providers and sorts the rest. The order is by
    provider type, then by descending available connections; the sort is stable.
  - It tries the providers in that order. It moves past a provider that fails, or
    that answers "no such article" while it is not the last one.
  - It returns the first other answer and records exactly one usage event for it.
  - If every provider fails, it rethrows the last provider exception. If there is no
    provider, it throws "There are no usenet providers configured.".
  - A cancellation ends the call at once.
  - `Failover.RunFrom` states the loop as a function of what each attempt does. The
    class method `MultiProviderNntpClient.RunFromPoolWithBackup` is the loop itself,
    proved equal to it.
  - The body and article overloads with an `onConnectionReadyAgain` callback pass on
    only `Retrieved` reports. They add one `NotRetrieved` when the call throws or ends
    with the wrong response kind.
- **The usage statistics** (`provider_stats.dfy`, `provider_stats_service.dfy`).
  - `StatsAggregation.CalculateStats` keeps the stored events of the last 24 hours
    that have an operation type. It groups them by (host, provider type), counts them
    per operation type and in total, and sorts the groups by descending total.
  - `StatsService.ProviderStatsService` holds the cached snapshot. Only a successful
    computation replaces it.
  - `StartStatsCalculationLoop` is the background loop, run over an observed sequence
    of rounds.
- **The hot swap** (`streaming_client.dfy`).
  - `UsenetStreamingClient.OnConfigChanged` rebuilds the multi-provider client only
    when the changed keys include `usenet.providers`.
  - The rebuilt client has one provider client per configured entry, in order. Each
    one has a pool of the entry's capacity and is wired to the pool-change handler of
    its index. That handler is told `(0, 0, capacity)` once.

Inputs the code reads from the environment are parameters of the model:

- the availability gauge of each pool (`available`);
- what each provider attempt does (`invoke`);
- whether cancellation has been requested before each attempt (`cancelledAt`);
- the stored events and clock readings of a computation (`Computation`);
- how shutdown shows up in each round of the statistics loop (`Round`).

The loop's error handler (backend/Services/ProviderStatsService.cs:48-52) waits one
minute before going on. That branch is never entered, and the model proves it dead
(`StatsService.ProviderStatsService.RunRound`):

- `CalculateAndCacheStats` catches every exception itself
  (backend/Services/ProviderStatsService.cs:130-133).
- The 15-minute wait throws only on shutdown, and then the error handler's filter
  (line 48) is false.
- So the back-off branch (lines 48-52) is never entered, and every wait is 15 minutes.
- A shutdown during a wait ends the loop by the cancellation exception escaping the
  loop, not by the loop condition.

## Model

| member | source | states |
|---|---|---|
| ProviderOrder.Candidates | backend/Clients/Usenet/MultiProviderNntpClient.cs:196-197 | the `Where` step: a candidate is listed exactly when it describes a provider that is not `Disabled`, with that provider's keys; candidates come in configured order |
| ProviderOrder.Insert | backend/Clients/Usenet/MultiProviderNntpClient.cs:198-199 | inserting a candidate adds exactly that candidate, nothing else changes |
| ProviderOrder.SortCandidates | backend/Clients/Usenet/MultiProviderNntpClient.cs:198-199 | the `OrderBy`/`ThenByDescending` sort keeps exactly the candidates it is given |
| ProviderOrder.SortIsSorted | backend/Clients/Usenet/MultiProviderNntpClient.cs:198-199 | candidates given in configured order come out strictly ordered by tier, then descending availability, then configured order |
| ProviderOrder.GetOrderedProviders | backend/Clients/Usenet/MultiProviderNntpClient.cs:194-201 | every position of the ordered list names a configured provider that is not `Disabled` |
| ProviderOrder.OrderedIsActivePermutation | backend/Clients/Usenet/MultiProviderNntpClient.cs:196-200 | the ordered list holds every non-`Disabled` provider exactly once and nothing else |
| ProviderOrder.OrderedIsSortedAndStable | backend/Clients/Usenet/MultiProviderNntpClient.cs:198-199 | the ordered list is non-decreasing in provider type; within one type it is non-increasing in available connections; full ties keep configured order |
| Failover.RunFrom | backend/Clients/Usenet/MultiProviderNntpClient.cs:133-191 | the attempt loop from position i stops within the list; an answer it returns comes from the provider at the stop, with one usage event; when it throws nothing is recorded |
| Failover.FailoverRun | backend/Clients/Usenet/MultiProviderNntpClient.cs:126-192 | a whole call stops within the list; it records one usage event when it returns an answer of a listed provider, and none when it throws |
| Failover.RunFromShape | backend/Clients/Usenet/MultiProviderNntpClient.cs:135-191 | a call passes over a prefix of the list and stops at the first provider it does not pass over; a returned answer is that provider's answer with its one usage event; any other stop before the end is a cancellation; running off the end rethrows the last provider's exception |
| Failover.SoftMissMovesOn | backend/Clients/Usenet/MultiProviderNntpClient.cs:139-153 | a "no such article" answer from a provider that is not last never ends the call or is returned |
| Failover.DecisiveAnswerIsReturned | backend/Clients/Usenet/MultiProviderNntpClient.cs:149-182 | once earlier providers are passed over, an answer that is not a non-last soft miss is returned unchanged, "no such article" from the last provider included, with one usage event for that provider |
| Failover.OneUsageEventPerReturn | backend/Clients/Usenet/MultiProviderNntpClient.cs:156-182 | a call records an event exactly when it returns, and then one event: the answering provider's host and type, the call's operation type, and the payload length as bytes (absent for other responses) |
| Failover.BytesOnlyForPayloadOperations | backend/Clients/Usenet/MultiProviderNntpClient.cs:156-164 | when the operation fixes the response type, the recorded event has a byte count exactly for `BODY` and `ARTICLE` calls |
| Failover.ExhaustedRethrowsLastFault | backend/Clients/Usenet/MultiProviderNntpClient.cs:184-190 | a provider exception escapes exactly when the list is non-empty and every provider is passed over; it is the last provider's exception and nothing is recorded |
| Failover.NoProvidersIffEmpty | backend/Clients/Usenet/MultiProviderNntpClient.cs:190-191 | the "no providers configured" exception is thrown exactly when the ordered list is empty; then nothing is recorded |
| Failover.CancellationPropagatesAtOnce | backend/Clients/Usenet/MultiProviderNntpClient.cs:135-187 | a cancellation requested before attempt k, or thrown by it, ends the call at k with the cancellation and no usage event |
| Failover.UntriedProvidersDoNotMatter | backend/Clients/Usenet/MultiProviderNntpClient.cs:135-153 | providers are tried in order and at most once: attempts after the stopping position do not affect the call |
| Failover.ForwardRetrieved | backend/Clients/Usenet/MultiProviderNntpClient.cs:85-89 | the forwarded reports are all `Retrieved`, exactly as many as were reported |
| Failover.ReadyNotifications | backend/Clients/Usenet/MultiProviderNntpClient.cs:66-89 | the caller hears `NotRetrieved` exactly when the call threw or ended with another kind than the expected one, and `Retrieved` as often as reported |
| Failover.ReadyNotificationRule | backend/Clients/Usenet/MultiProviderNntpClient.cs:66-89 | the caller hears `NotRetrieved` once, last, exactly when the call threw or ended with another kind than the expected one, and otherwise never; `Retrieved` as often as reported |
| MultiProvider.MultiProviderNntpClient.Ordered | backend/Clients/Usenet/MultiProviderNntpClient.cs:194-201 | the providers a call walks are configured providers that are not `Disabled` |
| MultiProvider.MultiProviderNntpClient.RunFromPoolWithBackup | backend/Clients/Usenet/MultiProviderNntpClient.cs:126-192 | the loop's outcome and the events it queues are those of `Failover.FailoverRun` on the ordered providers |
| MultiProvider.MultiProviderNntpClient.RunWithReadyCallback | backend/Clients/Usenet/MultiProviderNntpClient.cs:58-89 | the callback overload runs the failover loop and the caller's callback receives exactly `Failover.ReadyNotifications` |
| MultiProvider.MultiProviderNntpClient.DeliverReadyNotifications | backend/Clients/Usenet/MultiProviderNntpClient.cs:74-89 | the caller's callback receives the forwarded reports and then, after a throw or a wrong kind, `NotRetrieved`: exactly `Failover.ReadyNotifications` |
| MultiProvider.MultiProviderNntpClient.ForwardReports | backend/Clients/Usenet/MultiProviderNntpClient.cs:85-89 | every provider report goes through the wrapped callback, in order, and the caller receives `ForwardRetrieved` of them |
| MultiProvider.MultiProviderNntpClient.OnConnectionReadyAgain | backend/Clients/Usenet/MultiProviderNntpClient.cs:85-89 | the wrapped callback passes `Retrieved` on, if there is a caller callback, and drops `NotRetrieved` |
| MultiProvider.MultiProviderNntpClient.DecodedBodyAsync | backend/Clients/Usenet/MultiProviderNntpClient.cs:58-90 | the body overload: operation `BODY`, expected kind `ArticleRetrievedBodyFollows` |
| MultiProvider.MultiProviderNntpClient.DecodedArticleAsync | backend/Clients/Usenet/MultiProviderNntpClient.cs:92-124 | the article overload: operation `ARTICLE`, expected kind `ArticleRetrievedHeadAndBodyFollow` |
| MultiProvider.MultiProviderNntpClient.Dispose | backend/Clients/Usenet/MultiProviderNntpClient.cs:203-208 | every configured provider, disabled ones included, is disposed once, in configured order |
| StatsAggregation.QualifyingEvents | backend/Services/ProviderStatsService.cs:60-70 | an event is kept exactly when it is no older than 24 hours and has an operation type |
| StatsAggregation.GroupKeys | backend/Services/ProviderStatsService.cs:88-89 | the groups are the (host, provider type) pairs that occur, each once |
| StatsAggregation.OperationCounts | backend/Services/ProviderStatsService.cs:95-96 | a group's dictionary holds exactly the operation types that occur in it, each with its number of events |
| StatsAggregation.SortByTotal | backend/Services/ProviderStatsService.cs:113 | sorting by total neither adds nor drops an entry |
| StatsAggregation.CalculateStats | backend/Services/ProviderStatsService.cs:56-125 | a snapshot is stamped with the computation's time and a 24-hour window; what it holds is stated by the lemmas below |
| StatsAggregation.NonQualifyingEventsIgnored | backend/Services/ProviderStatsService.cs:60-67 | an event outside the window or without an operation type does not change the snapshot |
| StatsAggregation.EmptyWindowPublishesEmptySnapshot | backend/Services/ProviderStatsService.cs:72-85 | the snapshot has no providers exactly when no event qualifies, and then its total is 0; the window is always 24 hours and the stamp is the computation's |
| StatsAggregation.OneEntryPerProviderKey | backend/Services/ProviderStatsService.cs:88-106 | there is an entry for a (host, provider type) pair exactly when the pair occurs among the qualifying events, and never two for one pair |
| StatsAggregation.EntryCountsAreExact | backend/Services/ProviderStatsService.cs:94-108 | each entry's total is the number of its pair's events and the sum of its per-operation counts; each per-operation count is that pair's number of events with that operation |
| StatsAggregation.KeyCountIsSumOfOperationCounts | backend/Services/ProviderStatsService.cs:94-96 | when every event has an operation type, a group's size is the sum of its per-operation counts |
| StatsAggregation.SnapshotTotalMatchesEvents | backend/Services/ProviderStatsService.cs:100-121 | the snapshot total is the number of qualifying events and the sum of the provider totals |
| StatsAggregation.ProvidersSortedByTotal | backend/Services/ProviderStatsService.cs:113 | the provider list is non-increasing in total operations |
| StatsService.AfterComputation | backend/Services/ProviderStatsService.cs:116-133 | a failed computation leaves the cache as it was; a successful one always publishes a snapshot stamped with its time |
| StatsService.FailuresKeepSnapshot | backend/Services/ProviderStatsService.cs:130-133 | computations that fail leave the cached snapshot as it was |
| StatsService.CacheHoldsLastSuccess | backend/Services/ProviderStatsService.cs:116-125 | after a run of computations the cache holds the snapshot of the last successful one |
| StatsService.CacheNullUntilFirstSuccess | backend/Services/ProviderStatsService.cs:15-31 | starting from no snapshot, the cache is empty exactly while every computation so far has failed |
| StatsService.Completed | backend/Services/ProviderStatsService.cs:39-46 | the rounds that complete are the leading rounds in which shutdown does not show up |
| StatsService.ScheduleAlternates | backend/Services/ProviderStatsService.cs:34-54 | the loop computes first and then alternates 15-minute waits with computations; no other wait occurs |
| StatsService.NoBackOffWait | backend/Services/ProviderStatsService.cs:48-52 | the one-minute back-off wait never occurs in the loop's schedule |
| StatsService.ProviderStatsService.constructor | backend/Services/ProviderStatsService.cs:15-21 | a new service has no snapshot |
| StatsService.ProviderStatsService.GetCachedStats | backend/Services/ProviderStatsService.cs:26-32 | the reader gets the current snapshot, or none |
| StatsService.ProviderStatsService.CalculateAndCacheStats | backend/Services/ProviderStatsService.cs:56-134 | a successful computation replaces the snapshot with `CalculateStats` of the fetched events; a failed one leaves it unchanged; no exception leaves the call |
| StatsService.ProviderStatsService.StartStatsCalculationLoop | backend/Services/ProviderStatsService.cs:34-54 | the steps taken are `Schedule` of the completed rounds; the loop ends as `EndOf` says; the cache is what the startup computation and then the completed rounds' computations leave |
| StatsService.ProviderStatsService.RunRounds | backend/Services/ProviderStatsService.cs:38-53 | the `while` loop runs rounds until shutdown shows up: a completed wait and computation per completed round, the cut-short wait if there is one, and the cache those computations leave |
| StatsService.ProviderStatsService.RunRound | backend/Services/ProviderStatsService.cs:40-52 | the try block's exception comes only from a wait cut short by shutdown, so the error handler's filter is false whenever it runs: the one-minute back-off branch is proved dead and the exception escapes the loop |
| StreamingClient.CreateNewConnection | backend/Clients/Usenet/UsenetStreamingClient.cs:92-107 | a new connection connects with the entry's host, port and SSL flag, then authenticates with its user and password, in that order |
| StreamingClient.ProviderClientsFor | backend/Clients/Usenet/UsenetStreamingClient.cs:52-57 | one provider client per configured entry, client i wired to pool-changed handler i |
| StreamingClient.InitialNotifications | backend/Clients/Usenet/UsenetStreamingClient.cs:85-88 | one creation notification per configured entry, entry i's sent to handler i |
| StreamingClient.BuiltClientsGiveBackConfig | backend/Clients/Usenet/UsenetStreamingClient.cs:52-76 | reading back the endpoint of each built client gives the configured entries exactly: none dropped, added or reordered |
| StreamingClient.BuiltClientsMatchConfig | backend/Clients/Usenet/UsenetStreamingClient.cs:52-88 | built client i has entry i's host, provider type and capacity and handler index i; pool creation sends one `(i, 0, 0, capacity)` per entry |
| StreamingClient.CreateNewConnectionPool | backend/Clients/Usenet/UsenetStreamingClient.cs:78-90 | the pool has the given capacity and factory endpoint and is wired to the given handler, which receives `(0, 0, capacity)` once |
| StreamingClient.CreateProviderClient | backend/Clients/Usenet/UsenetStreamingClient.cs:61-76 | the provider client has the entry's host and type and a pool of the entry's capacity that connects with the entry |
| StreamingClient.CreateMultiProviderClient | backend/Clients/Usenet/UsenetStreamingClient.cs:43-59 | a new client over one provider client per entry, in config order, sharing the tracker, with a new pool-statistics service that received each pool's initial notification in order |
| StreamingClient.UsenetStreamingClient.constructor | backend/Clients/Usenet/UsenetStreamingClient.cs:12-19 | the wrapper starts with a client built from the configuration |
| StreamingClient.UsenetStreamingClient.OnConfigChanged | backend/Clients/Usenet/UsenetStreamingClient.cs:21-29 | a change without `usenet.providers` leaves the current client untouched; one with it installs a new client built from the configuration |

## Left out

- `PercentageOfTotal` (backend/Services/ProviderStatsService.cs:109-111) is not modelled. It is double division with `Math.Round`, which is floating point.
- Asynchrony, `lock`, `Task.Delay` timing and `SigtermUtil` are not modelled. Waits are steps of the loop, the lock is a plain field assignment, and cancellation is an outcome.
- The database query, `DateTimeOffset.UtcNow` and Serilog logging are not modelled. Events and clock readings are parameters, and timestamps are whole seconds.
- `ConnectionPool<T>`, `MultiConnectionNntpClient`, `BaseNntpClient`, `ConnectionPoolStats`, `ProviderUsageTrackingService`, `DownloadingNntpClient` and `WrappingNntpClient` are not part of this model. A pool is its capacity, the entry its factory connects with, and its handler index.
- The usage tracker is an append-only queue of events. The available-connections gauge is a number read at the start of each call.
- The model does not dispose the old client and its pools on a hot swap; the code does so in `ReplaceUnderlyingClient`, which is not modelled.
- The `DownloadingNntpClient` wrapper around the rebuilt client is not modelled. The wrapper holds the multi-provider client directly.
- Connect and authenticate failures in `CreateNewConnection` are not modelled. The model records only the order and arguments of the two calls.
- The `StatAsync`, `HeadAsync`, `DateAsync` and callback-free body/article overloads (backend/Clients/Usenet/MultiProviderNntpClient.cs:25-56) have no members of their own. Each only tags `RunFromPoolWithBackup` with its operation type, which is that method's `op` parameter.
- `ConnectAsync` and `AuthenticateAsync` on the multi-provider client (lines 15-23) are not modelled. They only throw `NotSupportedException`.
- The debug log of the previous exception (lines 141-145) is not modelled.
- `MultiProvider.MultiProviderNntpClient.RunFromPoolWithBackup`: failures of the byte count (`Stream.Length`, lines 157-164), of the usage log (line 168) and of the tracker (lines 176-180) are not modelled. In the code they run inside the same `try` as the provider call. Such a failure is caught at line 184 like a provider failure: the answer is dropped, and the loop moves on or rethrows. The model makes all three infallible, so `Failover.DecisiveAnswerIsReturned` and `Failover.OneUsageEventPerReturn` hold without that condition. The code's behaviour after such a failure is that of an attempt that faulted, which the model's `invoke` can express.
- `MultiProvider.MultiProviderNntpClient.RunWithReadyCallback`: provider reports are delivered after the failover loop and before the final `NotRetrieved`. In the code a provider may report while the call is still running, or after it returned. The model fixes one interleaving.
- The usage event carries the provider type as a value, not as the string `ProviderType.ToString()` gives.
- Counts are unbounded naturals; the code uses 64-bit `long`.
- `StatsAggregation.ProvidersSortedByTotal`: it does not state the order among entries with equal totals. `SortByTotal` is stable, so they keep the order in which their pairs first occur.
- The null-to-empty fallback of the statistics endpoint (backend/Api/Controllers/GetProviderStats/GetProviderStatsController.cs:15-23) is not modelled. It belongs to the HTTP layer.
- The frontend rendering of the statistics is not modelled.
- `StatsService.ProviderStatsService.StartStatsCalculationLoop` covers a finite observed run of rounds. The loop itself runs until shutdown.
