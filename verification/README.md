# Verified model of the MachMQTT dashboard

The dashboard polls NATS clusters and MQTT bridges, stores metrics, and serves an authenticated API.
This project models, in Dafny, the parts of it that carry protocol, state-machine, parser or arithmetic
content, and proves what they promise over every input, every run or every interleaving.

Verify everything with `dafny verify dfyconfig.toml`.

| file | component |
|---|---|
| `metrics_writer.dfy` | the bounded metrics queue: concurrent `Submit`, one `Run`, shutdown with a final drain |
| `rate_limiter.dfy` | the login rate limiter: sliding windows in a bounded table with two-phase eviction |
| `exposition.dfy` | the Prometheus line scanners, against a printer of the text format (version 0.0.4) |
| `scrape.dfy` | whole scrape bodies: lines, HELP texts and captured samples |
| `histogram.dfy` | cumulative-to-raw buckets in place, and the push decoder for two bucket layouts |
| `accounts.dfy` | the users table, one atomic step per SQL statement; token versions and the session check |
| `collection.dfy` | the `$SYS`/HTTP collector: grace period, fallback, slow and fast polls, carry-forward |
| `manager.dfy` | live add, update and remove of clusters |
| `common.dfy` | optional values and other shared definitions |
| `ordering.dfy` | string order, stable sorting and filtering, used by the list handlers |
| `connz_paging.dfy` | paged fan-in of connections, completeness flags, in-place filters, response pages |
| `row_cap.dfy`, `subs_rows.dfy` | the subscription table, built with nested early exits, and how far it exceeds its cap |
| `connz_handler.dfy` | the connection list request: fan-in, account and subject filter, page |
| `status_cache.dfy` | the single-flight bridge status cache |
| `cluster_secrets.dfy` | redaction, host-path sanitising and secret merging of cluster edits |
| `topology.dfy` | the topology graph, built from maps walked in any order |
| `time_buckets.dfy`, `fleet_query.dfy`, `metric_points.dfy` | request time ranges, time buckets, bucketed and fleet-wide series, and how many points they return |

## Conventions

- Time is an integer passed in. Map iteration is an arbitrary choice of the next key. Counters are
  unbounded integers; where the source is limited to 64 bits and it matters, the bound is stated
  (`Histogram.NeverOverflows`). Metric values are real numbers.
- Code that changes state is a class whose methods are tied to a function on a value (`St()`, `View()`,
  `db`), and the whole-run results are lemmas about that function over event sequences of any length.
  Concurrent protocols are event machines whose runs are arbitrary interleavings.
- Results of the network, the disk and SQL statements are parameters, arbitrary unless a lemma says what
  it asks of them (for example that a server answers from one fixed list).

## What the proofs found

- `maxMetricPoints` is documented as the number of points any single query can return. Integer division
  makes twice that the tight bound on the buckets of a request (`TimeBuckets.RequestBound`,
  `TimeBuckets.BoundsAreTight`), and a request for server metrics without a server id returns a point for
  each bucket and server (`MetricPoints.RequestPointBound`, `MetricPoints.TwoServersExceed`). The
  documented bound holds exactly when the most buckets a range of that length can have, times the number
  of servers, stay within it (`MetricPoints.DocumentedBound`). The model follows the code.
- Updating only the TLS settings of a cluster's NATS connection does not reach the running connection,
  because `natsConnSame` does not compare them (`Manager.StaleConnectionTls`). In every run the connection
  has the settings its collector was last built with, which are the configured ones exactly when the
  updates since then left those TLS settings where they were (`Manager.RunningConnection`).
- An unedited cluster edit is the identity on what the API reads exactly when URLs of one host share their
  user info and bridges of one name share their token (`ClusterSecrets.UneditedEditIsIdentity`). On the
  stored row it is the identity exactly when, besides, no CA file had to be read: a row that names a CA
  file without its contents has them inlined by an unedited edit (`ClusterSecrets.UneditedUpdateStores`,
  `ClusterSecrets.UneditedUpdateInlinesCa`), and from then on no longer follows the file
  (`ClusterSecrets.InlinedStaysInlined`). Two servers of one host with different user info end with the
  first's (`ClusterSecrets.SharedHostMixesUsers`).
- An update whose load of the stored cluster fails, for example on a transient SQL error, goes on without
  it. Unedited, it is refused exactly when the form names a CA file; otherwise the form is stored as it is
  and every secret is gone (`ClusterSecrets.UneditedAfterFailedLoad`, `ClusterSecrets.FormLosesSecrets`).
- The topology link key tells a link apart from every other exactly when the key can be cut into an ordered
  pair at one separator `<->` only (`Topology.KeyTellsApartIff`). Ids without the separator always have that
  (`Topology.RouteKeyInjective`); with it two links may share a key (`Topology.SeparatorsCollide`) or not
  (`Topology.SeparatorToldApart`). In a graph it is enough that server ids are plain, whatever leaf, gateway
  and bridge names hold (`Topology.EdgesFromSnapshot`).
- `subsRowsFromConnz` may return more rows than its cap: one more for each connection with subscriptions
  after the one that reached it (`RowCap.WalkedLength`, `SubsRows.CapExceeded`). It stays within the cap in
  every map order exactly when, for each server with subscriptions, all rows but those of its last
  connection that has any stay below the cap (`SubsRows.CapKeptIff`). A table without the truncation flag
  is exact either way (`SubsRows.SubsRowsFromConnz`).

## Model

| member | source | states |
|---|---|---|
| MetricsQueue.InvAlways | internal/store/metrics.go:186-277 | the lock, FIFO, call and counter invariants hold after every interleaving of any number of `Submit` calls with `Run`, cancellation and shutdown |
| MetricsQueue.FifoOrder | internal/store/metrics.go:186-255 | at every moment the accepted samples are the persisted ones, the one in hand and the queued ones, in channel order, and the queue never exceeds its capacity |
| MetricsQueue.Conservation | internal/store/metrics.go:186-277 | attempts = written + failed + dropped + queued + in hand + undecided in every interleaving; with no call in flight no drop escapes the periodic report |
| MetricsQueue.ExactlyOnceAtShutdown | internal/store/metrics.go:208-255 | when `Run` returns the channel is empty and a finished call was told true exactly when its own sample was persisted, once, in order |
| MetricsQueue.NeverRefills | internal/store/metrics.go:186-255 | after `Run` has returned no continuation puts anything in the channel or changes what was persisted; late calls are told false |
| MetricsQueue.DrainShrinks | internal/store/metrics.go:220-232 | once the stop flag is set the queue never grows, so the drain ends |
| MetricsQueue.SubmitPath | internal/store/metrics.go:186-205 | an undisturbed `Submit` is a legal path of the event machine to the state its contract describes |
| MetricsQueue.MetricsWriter.Submit | internal/store/metrics.go:186-205 | accepted exactly when open and not full; otherwise counted as dropped; tied to the event machine |
| MetricsQueue.MetricsWriter.Drain | internal/store/metrics.go:224-232 | persists everything queued, in order, and empties the channel |
| MetricsQueue.MetricsWriter.Shutdown | internal/store/metrics.go:220-232 | ends stopped, empty and with every queued sample persisted |
| MetricsQueue.MetricsWriter.PersistSample | internal/store/metrics.go:265-277 | exactly one of written and failed grows |
| RateLimiter.LoginRateLimiter.Allow | internal/auth/ratelimit.go:45-81 | the new table and the decision are those of the eviction relation and the trimmed window; counters follow |
| RateLimiter.LoginRateLimiter.EvictStale | internal/auth/ratelimit.go:83-118 | expired keys go, then the oldest keys below their limit, in any tie order, as many as the low-water mark asks |
| RateLimiter.LoginRateLimiter.Prune | internal/auth/ratelimit.go:150-165 | every key keeps exactly its live attempts and empty keys go |
| RateLimiter.TableRefinesLog | internal/auth/ratelimit.go:45-165 | in every run `Allow` admits exactly when a plain log since the key was last shed has fewer than `max` attempts in the window |
| RateLimiter.AtMostMaxPerWindow | internal/auth/ratelimit.go:45-165 | no closed interval of a window's length holds more than `max` admissions of a key between two evictions of it |
| RateLimiter.OnlyTheClockUnblocks | internal/auth/ratelimit.go:54-118 | after any calls on other keys and prunes the next decision for a key depends on its own attempts and the clock alone |
| RateLimiter.BoundedOrAllBlocked | internal/auth/ratelimit.go:54-81 | when a new key is inserted the table fits its bound or every other key is at its limit |
| RateLimiter.EvictionFits | internal/auth/ratelimit.go:83-118 | eviction leaves room for one more key or only keys at their limit |
| RateLimiter.EvictionSize | internal/auth/ratelimit.go:83-118 | how many keys eviction leaves: all resident ones below the bound, else the low-water mark or the keys at their limit |
| RateLimiter.OtherKeysOf | internal/auth/ratelimit.go:45-118 | a call changes no other key's attempts, evicts only from a full table, and drops only expired keys or keys with budget left |
| RateLimiter.PrefixIsOldest | internal/auth/ratelimit.go:100-118 | a prefix of the age-sorted candidates is a choice of oldest keys |
| RateLimiter.KeyInvAlways | internal/auth/ratelimit.go:45-165 | a key's table entry is the live tail of its log in every reachable state |
| Exposition.LabelBlockEnd | internal/collector/mqtt_metrics_parser.go:1053-1074 | the loop finds the closing brace outside quotes, or none |
| Exposition.ParseMetricLine | internal/collector/mqtt_metrics_parser.go:1032-1049 | the split of a line into name and value |
| Exposition.ScanLabelValue | internal/collector/mqtt_metrics_parser.go:1137-1167 | the unescaped value and the position past its quote, or failure |
| Exposition.ExtractLabel | internal/collector/mqtt_metrics_parser.go:1104-1132 | the value of the first pair with the key, or the empty string |
| Exposition.ScanEscaped | internal/collector/mqtt_metrics_parser.go:1137-1167 | scanning undoes escaping for every value and stops just past the quote |
| Exposition.UnescapeMeans | internal/collector/mqtt_metrics_parser.go:1137-1167 | the three escapes, and any other keeps its backslash |
| Exposition.ParseMalformed | internal/collector/mqtt_metrics_parser.go:1032-1049 | unclosed blocks and single fields |
| Exposition.BlockEndOfLabels | internal/collector/mqtt_metrics_parser.go:1053-1074 | the true closing brace is found in every printed label block, braces and quotes in values included |
| Exposition.ParseOfRender | internal/collector/mqtt_metrics_parser.go:1032-1049 | every printed sample parses to its own name and value |
| Exposition.ExtractOfRender | internal/collector/mqtt_metrics_parser.go:1104-1132 | any key extracted from a printed sample gives the first label of that name, unescaped, or the empty string |
| Exposition.FirstValueOfDistinct | internal/collector/mqtt_metrics_parser.go:1104-1132 | with distinct names each label's own value is returned and absent names give nothing |
| Exposition.SeriesKeyOfRender | internal/collector/mqtt_metrics_parser.go:1079-1099 | the uncurated key of a printed sample is its name and its label block |
| Exposition.SeriesKeyInjective | internal/collector/mqtt_metrics_parser.go:1079-1099 | different names or label blocks never share an uncurated key |
| Scrape.SplitJoin | internal/collector/mqtt_metrics_parser.go:93-105 | splitting joined lines at line feeds gives them back |
| Scrape.RenderIsLine | internal/collector/mqtt_metrics_parser.go:93-105 | a printed sample is one trimmed line and no comment, whatever its label values hold |
| Scrape.BodyCaptured | internal/collector/mqtt_metrics_parser.go:93-107 | scraping the text of a whole body captures exactly its items in order: samples under name and label block with the help last seen for their name, HELP lines by family, other lines not at all |
| Scrape.CapturedLastValue | internal/collector/mqtt_metrics_parser.go:1079-1099 | after scraping a body a series' entry holds the value of the last sample of exactly that series |
| Scrape.UncuratedMetrics.ScrapeBody | internal/collector/mqtt_metrics_parser.go:93-107 | the loop over the lines: HELP texts are remembered, comments skipped, samples captured with the help of their family |
| Scrape.UncuratedMetrics.CaptureUncurated | internal/collector/mqtt_metrics_parser.go:1079-1099 | one entry changes, under the series key; help text is kept by name |
| Histogram.BucketsCumulativeToRaw | internal/collector/mqtt_metrics_parser.go:1271-1278 | the in-place passes give the differences of the running maxima |
| Histogram.PrefixSumsAreRunningMax | internal/collector/mqtt_metrics_parser.go:1271-1278 | prefix sums of the result are the running maxima of the input |
| Histogram.RunningMaxIsMaximum | internal/collector/mqtt_metrics_parser.go:1271-1278 | the running maximum bounds every earlier entry and is one of them |
| Histogram.NeverOverflows | internal/collector/mqtt_metrics_parser.go:1271-1278 | on non-negative 64-bit counts everything stored stays one |
| Histogram.DecodePushed | internal/collector/mqtt_metrics_parser.go:1233-1262 | the pushed array in the current layout, a legacy one moved around the missing bound |
| Histogram.PushedMeans | internal/collector/mqtt_metrics_parser.go:1233-1262 | ten counts, nine counts, and any other number |
| Histogram.LegacyIndex | internal/collector/mqtt_types.go:671-684 | every legacy bound is found at its place among the current ones |
| Histogram.ScrapeAgreesWithPush | internal/collector/mqtt_metrics_parser.go:1203-1278 | scraping the cumulative form of any bucket array of either layout gives what decoding the pushed array gives |
| Accounts.ExecConsistent | internal/store/store.go:377-380 | every statement keeps local usernames and external identities unique and ids below the next one |
| Accounts.LocalRowStable | internal/store/store.go:666-719 | external upserts never alter or remove a local row, and no statement demotes a local administrator |
| Accounts.ExecKeepsLocalAdmin | internal/store/store.go:837-863 | no statement, the guarded delete included, removes the last local administrator |
| Accounts.BreakGlassHolds | internal/store/store.go:868-911 | once `EnsureBreakGlassAdmin` has succeeded every later state of every interleaving has a local administrator |
| Accounts.VersionStep | internal/store/store.go:690-757 | versions never decrease, and change exactly on the statements that revoke |
| Accounts.TokenAge | internal/store/store.go:690-757 | between issue and any later state either nothing revoked the user and the version is the token's, or the token is dead |
| Accounts.AcceptedIffNotRevoked | internal/auth/auth.go:235-277 | a token is accepted exactly when valid and its user was not deleted, logged out, re-roled, promoted or given a password since issue; the claims served are the row's |
| Accounts.RefusedForever | internal/auth/auth.go:235-277 | a token refused for its version or missing user is refused in every later state |
| Accounts.OutcomeIff | internal/auth/auth.go:235-287 | unauthorized, forbidden and served, each exactly when, on the row and the request; a local user who must change the password reaches only the own account, the logout and that change |
| Accounts.LocalAdminMeans | internal/store/store.go:868-880 | a local administrator is a row of provider local and role admin |
| Accounts.UserStore.CreateUser | internal/store/store.go:580-603 | on success one new row with exactly the given username, password and role, local, with no subject, no required change and version 0, every other row unchanged; each error, a password that cannot be hashed included, exactly when its cause holds |
| Accounts.UserStore.UpsertExternalUser | internal/store/store.go:666-719 | a new row with the given fields, or the identity's row with username and role refreshed and the version bumped exactly on a role change; every other row unchanged |
| Accounts.UserStore.ChangePassword | internal/store/store.go:721-751 | succeeds exactly for an existing local user with a matching password and a new one that can be hashed; the hash becomes the new one, the required change is cleared, the version bumped, and nothing else changes |
| Accounts.UserStore.DeleteUser | internal/store/store.go:837-863 | not found, last local administrator or deleted, each exactly when it should be |
| Accounts.UserStore.EnsureBreakGlassAdmin | internal/store/store.go:868-911 | each outcome exactly when it should be; success leaves a local administrator, a table that has one is not touched, a promoted account keeps its password and has its sessions revoked, and every other row stays |
| Collection.Collector.Poll | internal/collector/collector.go:200-325 | one poll is one step of the fallback state machine |
| Collection.Collector.Run | internal/collector/collector.go:135-158 | the first poll is slow and then every third tick |
| Collection.SYSCollector.SweepExpired | internal/collector/sys_collector.go:223-236 | exactly the entries younger than the time to live survive |
| Collection.SYSCollector.Poll | internal/collector/sys_collector.go:238-314 | the snapshot with its carried maps, or none without a connection or servers |
| Collection.HealthyIff | internal/collector/sys_collector.go:238-292 | a poll is healthy exactly when `$SYS` is tried, configured, and the source it reads has a server |
| Collection.HealthyStores | internal/collector/sys_collector.go:265-314 | a healthy poll stores the PING replies, or exactly the cached servers with their cached figures and the carried fields, and carries every other map |
| Collection.UnhealthyStores | internal/collector/collector.go:228-320 | any other poll keeps what is served within the 60 s of grace and else stores the HTTP answers |
| Collection.FallbackOnlyAfterGrace | internal/collector/collector.go:200-246 | after health, fallback is entered exactly when every `$SYS` poll since the last healthy one failed and the first failure is at least 60 s old |
| Collection.ServesLastHealthySnapshot | internal/collector/collector.go:200-246 | until then the served snapshot is the one the last healthy `$SYS` poll stored |
| Collection.FallbackEndsWithHealth | internal/collector/collector.go:200-246 | the first healthy `$SYS` poll leaves fallback; otherwise HTTP data is served |
| Collection.CarriesLatest | internal/collector/collector.go:303-358 | in every run the snapshot carries the latest fetched slow and fast maps |
| Collection.ServesLatestLive | internal/collector/sys_collector.go:270-290 | in every run the figures served of each server are those of the latest STATSZ entry, PING reply or HTTP answer stored, and no other server is served |
| Collection.SlowEveryThree | internal/collector/collector.go:135-158 | any three consecutive polls include a slow one |
| Collection.SlowExactly | internal/collector/collector.go:135-158 | until the counter wraps exactly every third poll is slow |
| Collection.HttpServesLatestSlowPoll | internal/collector/collector.go:303-315 | over HTTP the slow maps are those of the latest slow poll, at most two polls back |
| Collection.PerServerFieldsCarried | internal/collector/sys_collector.go:255-314 | over `$SYS` a server in every snapshot since keeps the fields of the poll that last fetched them |
| Manager.ManagerRefinesSpec | internal/collector/collector.go:704-798 | over every sequence of adds, updates and removes, failed builds included, each tracked id has exactly one uncancelled run on its latest configuration and no other id has any |
| Manager.SpecMeans | internal/collector/collector.go:717-798 | what each operation does to the tracked configurations, failed builds included |
| Manager.OneRunEach | internal/collector/collector.go:704-798 | the run set of an id is the tracked object alone, or empty |
| Manager.ClusterManager.Start | internal/collector/collector.go:704-713 | every collector built so far gets its one run, on its current environment, whatever the map order |
| Manager.ClusterManager.AddCluster | internal/collector/collector.go:717-746 | adds and, once started, runs an untracked cluster; a tracked one or a failed build changes nothing |
| Manager.ClusterManager.UpdateCluster | internal/collector/collector.go:764-798 | swaps the environment in place or rebuilds; a failed build leaves the cluster untracked |
| Manager.ClusterManager.RemoveCluster | internal/collector/collector.go:749-758 | cancels the run and forgets the cluster |
| Manager.RunningConnection | internal/collector/collector.go:704-824 | over every sequence of operations the running connection has the NATS settings of the operation that last built the collector, and these are the configured ones exactly when the updates since then left the connection's TLS where it was |
| Manager.StaleConnectionTls | internal/collector/collector.go:1053-1075 | for every cluster: adding it and then changing only its connection's TLS leaves the running connection on the old settings |
| ConnzPaging.FetchServer | internal/api/handlers_env.go:46-73 | the paging loop ends and computes the pages' result |
| ConnzPaging.PagingTurn | internal/api/handlers_env.go:48-73 | one turn of the loop for any endpoint: id and total from the first named page, when it stops, and how it ends |
| ConnzPaging.FetchReadsPrefix | internal/api/handlers_env.go:46-73 | against any fixed list the result is a prefix of it, and the whole list when neither failed nor truncated |
| ConnzPaging.TruncatedIffAtCap | internal/api/handlers_env.go:46-73 | with full pages the flag is up exactly when the server has at least 50000 connections |
| ConnzPaging.FlattenConnz | internal/api/handlers_env.go:79-108 | the sorted, capped list, the sums, and the partial flag exactly when something is missing |
| ConnzPaging.KeyOrderMeans | internal/api/handlers_env.go:92-103 | the order is by server, connection id, address and port |
| ConnzPaging.FailuresCount | internal/api/handlers_env.go:80-91 | the failed servers are counted one by one |
| ConnzPaging.FlattenComplete | internal/api/handlers_env.go:79-108 | in key order and never inventing rows; without the partial flag exactly the multiset union, stably, with the true total |
| ConnzPaging.FilterInPlace | internal/api/handlers_env.go:243-251 | overwriting the front of the same array is the filter of its old contents |
| ConnzPaging.PagesConcatenate | internal/api/handlers_env.go:278-302 | successive limit/offset pages concatenate to the list for every requested limit |
| ConnzPaging.PageIs | internal/api/handlers_env.go:278-302 | which stretch of the list a limit and an offset parameter give |
| ConnzHandler.HandleConnz | internal/api/handlers_env.go:214-302 | page and totals of a request in terms of the servers' answers; without the partial flag the fan-in is whole and the subject filter exact |
| ConnzHandler.SubjectFilter | internal/api/handlers_env.go:255-276 | unless truncated, the keys are exactly those of the connections with a subscription containing the text |
| ConnzHandler.ContainsMeans | internal/api/handlers_env.go:264-267 | the text stands somewhere in the subject |
| ConnzHandler.WalkListsSubscribed | internal/api/handlers_env.go:214-302 | when neither flag is up, walking a subject-filtered request lists exactly the connections of the account with a subscription containing the text, as often as they occur, in order |
| ConnzPaging.WalkListsEverything | internal/api/handlers_env.go:38-302 | walking the pages of an answer that is not partial lists every connection that passes the account filter and any set of keys, as often as it occurs, in order, and nothing else |
| SubsRows.RowsFromResults | internal/api/handlers_env.go:504-556 | sorted rows of the results only; truncated exactly when a result is incomplete or the rows reach the cap; otherwise all rows |
| SubsRows.DetailedRow | internal/api/handlers_env.go:521-535 | every field of a detailed subscription's row, with the account defaulting |
| SubsRows.PlainRow | internal/api/handlers_env.go:536-549 | every field of a plain subscription's row |
| SubsRows.ItoaReads | internal/api/handlers_env.go:538-541 | the subscription id of a plain row reads back as its position |
| SubsRows.SubscriptionListed | internal/api/handlers_env.go:504-556 | every subscription of every connection of every server has its row in the full table |
| SubsRows.SubjectOrderMeans | internal/api/handlers_env.go:558-558 | the table is ordered by subject |
| SubsRows.LoadOverHttp | internal/api/handlers_env.go:494-560 | against fixed lists, rows not marked truncated are exactly every subscription of every connection of every server |
| SubsRows.SubsRowsFromConnz | internal/api/handlers_env.go:567-623 | whatever the map order, only real rows; without the flag each as often as the snapshot has it; the flag's exact cause; and the number of rows |
| RowCap.WalkedLength | internal/api/handlers_env.go:581-613 | up to the cap all rows; past it the cap and one more for each connection with subscriptions after the one that reached it |
| SubsRows.CapKeptIff | internal/api/handlers_env.go:567-623 | the cap is kept in every map order exactly when, for each server with subscriptions, all rows but those of its last connection that has any stay below it |
| SubsRows.CapExceeded | internal/api/handlers_env.go:567-623 | a snapshot whose only walk exceeds the cap by any chosen number of rows |
| SubsRows.LoadSubsRows | internal/api/handlers_env.go:452-560 | the snapshot's rows where it has any, else the HTTP rows, each exact unless truncated |
| SubsRows.OrderIrrelevant | internal/api/handlers_env.go:567-623 | the multiset of rows does not depend on the order of the servers |
| StatusCache.SingleFlightAlways | internal/api/handlers_mqtt.go:50-81 | in every interleaving a key has at most one probe, and its flag is up exactly then |
| StatusCache.StaleGetsProbe | internal/api/handlers_mqtt.go:50-61 | a read of a key without a result, or with one at least the time to live old, leaves a probe running |
| StatusCache.ReadStartsProbeIff | internal/api/handlers_mqtt.go:50-61 | after any legal run a read starts a probe exactly when none of the key is running and no result, or only one at least the time to live old, is known |
| StatusCache.ServesLastKnown | internal/api/handlers_mqtt.go:50-81 | readers see exactly the last probe result that was not nil, with its time |
| StatusCache.KnownStaysKnown | internal/api/handlers_mqtt.go:65-81 | a known status is never replaced by none, whatever probes return |
| StatusCache.ProbesConserved | internal/api/handlers_mqtt.go:50-81 | every probe started has ended or is the one running |
| StatusCache.FreshNeverProbed | internal/api/handlers_mqtt.go:50-61 | within the time to live of a success no probe of the key starts |
| StatusCache.BridgeStatusCache.GetAsync | internal/api/handlers_mqtt.go:50-61 | returns the last known status and starts a probe exactly when stale and none is running |
| StatusCache.BridgeStatusCache.FinishRefresh | internal/api/handlers_mqtt.go:65-81 | clears the flag and stores only a result that is there |
| ClusterSecrets.ToClusterView | internal/api/handlers_clusters.go:132-169 | the loops build the redacted view |
| ClusterSecrets.ViewShows | internal/api/handlers_clusters.go:132-169 | every field of the view |
| ClusterSecrets.ViewHidesSecrets | internal/api/handlers_clusters.go:132-169 | the view depends on no secret beyond whether it is set |
| ClusterSecrets.SanitizeHostPaths | internal/api/handlers_clusters.go:184-248 | stored paths or refusal |
| ClusterSecrets.RestoreUrlCreds | internal/api/handlers_clusters.go:66-78 | the user info of the first stored URL of the host that has any |
| ClusterSecrets.UrlsRoundTrip | internal/api/handlers_clusters.go:38-78 | redacting and restoring a URL list is the identity exactly when URLs of one host share their user info |
| ClusterSecrets.BridgesRoundTrip | internal/api/handlers_clusters.go:289-304 | echoing and merging bridges is the identity exactly when hosts agree on user info and names on tokens |
| ClusterSecrets.MergeClusterSecrets | internal/api/handlers_clusters.go:258-305 | blank secrets are the stored ones, given ones stay |
| ClusterSecrets.MergeKeeps | internal/api/handlers_clusters.go:254-305 | for every request and stored cluster, field by field: a given secret or user info stays, a blank one is the stored one, and nothing else changes |
| ClusterSecrets.SanitizeKeeps | internal/api/handlers_clusters.go:184-252 | refused exactly for a foreign CA or creds path; otherwise stored paths, and the given certificate or the stored one |
| ClusterSecrets.CommitKeeps | internal/api/handlers_clusters.go:374-431 | the same of the stored row after a commit, and when it is left alone |
| ClusterSecrets.UnloadedStores | internal/api/handlers_clusters.go:324-356 | a request without a loaded cluster is stored as it is or refused |
| ClusterSecrets.UneditedEditIsIdentity | internal/api/handlers_clusters.go:132-305 | the echoed view is never refused and merges to the stored cluster exactly under those two conditions |
| ClusterSecrets.UneditedUpdateStores | internal/api/handlers_clusters.go:374-431 | the update flow stores what was read exactly when the cluster is faithful, and leaves the stored row as it was exactly when, besides, no CA file had to be inlined |
| ClusterSecrets.UneditedUpdateInlinesCa | internal/store/clusters.go:294-306 | a faithful row, naming a CA file without its contents, that an unedited update rewrites |
| ClusterSecrets.InlinedStaysInlined | internal/store/clusters.go:294-306 | a stored cluster reads the same whatever its CA files hold exactly when their contents are inlined |
| ClusterSecrets.SharedHostMixesUsers | internal/api/handlers_clusters.go:66-78 | two servers of one host with different user info end with the first's |
| ClusterSecrets.UneditedAfterFailedLoad | internal/api/handlers_clusters.go:387-422 | after a failed load an unedited update is refused exactly when the form names a CA file, and otherwise stores the form |
| ClusterSecrets.FormLosesSecrets | internal/api/handlers_clusters.go:132-169 | the form is the cluster exactly when the cluster has no secret |
| ClusterSecrets.OnlySeededPaths | internal/api/handlers_clusters.go:324-431 | no run of creates, deletes and interleaved updates, including stale loads and loads that failed for any reason, stores a CA or creds path that was not seeded for that cluster |
| ClusterSecrets.ClusterHandlers.HandleCreate | internal/api/handlers_clusters.go:324-371 | a created cluster has no host path; a refused request changes nothing |
| ClusterSecrets.ClusterHandlers.CommitUpdate | internal/api/handlers_clusters.go:387-422 | what was loaded, sanitised and merged is written over the row as it is now |
| TimeBuckets.ParseTimeRange | internal/api/handlers_metrics.go:59-89 | each value exactly, defaults included; the range is in order, at most a month and a minute, and the step at least a 5000th of it |
| TimeBuckets.BucketCount | internal/store/metrics.go:396-413 | a range has one bucket per quotient between those of its ends |
| TimeBuckets.QuotientTruncates | internal/store/metrics.go:396-413 | buckets divide toward zero |
| TimeBuckets.CallerStepBound | internal/api/handlers_metrics.go:59-93 | a caller's step gives at most twice `maxMetricPoints` buckets, at every clock value |
| TimeBuckets.AutoStepBound | internal/store/metrics.go:462-472 | without one there are at most 241 |
| TimeBuckets.BoundsAreTight | internal/api/handlers_metrics.go:59-93 | parameters of requests that reach both limits |
| TimeBuckets.RequestBound | internal/api/handlers_metrics.go:59-93 | every request, at every clock value, has at most 10000 buckets with a caller's step and 241 without |
| TimeBuckets.BucketMaximum | internal/store/metrics.go:396-413 | the most buckets a range of a length can have, wherever it lies, and a place where it has them |
| MetricPoints.PointsAreGroups | internal/store/metrics.go:396-413 | a query returns one point for each bucket and source with a sample |
| MetricPoints.OnePointPerBucket | internal/store/metrics.go:396-413 | at most one point per bucket without an id column or with an id filter |
| MetricPoints.FleetPointPerBucket | internal/store/metrics.go:569-582 | at most one point per bucket in the fleet series |
| MetricPoints.RequestPointBound | internal/api/handlers_metrics.go:25-93 | every request on every table returns at most the bucket limit times the sources with a sample in range |
| MetricPoints.RequestPointBoundReached | internal/api/handlers_metrics.go:25-93 | a request and tables that reach it for any number of sources |
| MetricPoints.TwoServersExceed | internal/api/handlers_metrics.go:25-40 | two servers and a range of 4999 one-second steps give 10000 points |
| MetricPoints.DocumentedBound | internal/api/handlers_metrics.go:82-93 | without an id the documented bound holds for every placement and every table of at most n sources exactly when n times the most buckets of the range is within it |
| MetricPoints.DocumentedBoundPerBucket | internal/api/handlers_metrics.go:82-93 | without an id column, or filtered by any id, it holds exactly up to 4999 steps |
| FleetQuery.RunQuery | internal/store/metrics.go:396-413 | one row for each group with a sample, holding its NULL-skipping average |
| FleetQuery.AverageMeans | internal/store/metrics.go:396-413 | an average is the mean of the present values of its environment, range, bucket and source, and NULL exactly when there is none |
| FleetQuery.FleetSum | internal/store/metrics.go:578-582 | one pass gives a point for each bucket with its NULL-skipping sum |
| FleetQuery.TotalMeans | internal/store/metrics.go:569-582 | a fleet value is the sum of the bucket's averages, and NULL exactly when all of them are |
| FleetQuery.FleetIsSumOfBridges | internal/store/metrics.go:562-582 | in any row order the fleet series is the pointwise sum of the per-bridge series, with a point exactly where some bridge has one |
| FleetQuery.QueryMqttMetrics | internal/store/metrics.go:562-582 | the fleet wrapping applies exactly to requests without a bridge id |
| Topology.BuildTopology | internal/collector/topology.go:28-289 | unique node ids; given distinct names exactly the snapshot's nodes; given also server ids without `->` and the prefixes of other nodes, exactly its edges, no pair twice; for polled snapshots every endpoint is a node |
| Topology.OffersIff | internal/collector/topology.go:121-286 | what each kind of link is offered for, on the snapshot's fields |
| Topology.LeafJoins | internal/collector/topology.go:164-196 | a leaf joins the server that carries its name, or its address where it has none, or a route joins the two; any other leaf joins a node of its own |
| Topology.BridgeJoins | internal/collector/topology.go:196-286 | a bridge connection joins its server to the node of the address it is shown at |
| Topology.EdgesFromSnapshot | internal/collector/topology.go:121-286 | two nodes are joined by a kind exactly when the snapshot offers it and no earlier kind, whatever the walking order |
| Topology.OrderIndependent | internal/collector/topology.go:121-286 | any two walking orders give the same undirected edges |
| Topology.OnlyRoutesHideLeaves | internal/collector/topology.go:164-196 | the only edges hidden are leaf edges between routed nodes |
| Topology.NodesFromSnapshot | internal/collector/topology.go:48-78 | the nodes are the servers and the targets of offered links |
| Topology.NoPairTwice | internal/collector/topology.go:121-286 | no two nodes are joined twice |
| Topology.KeyTellsApartIff | internal/collector/topology.go:291-296 | no other two ends have a link's key exactly when the key has one cut into an ordered pair |
| Topology.RouteKeyInjective | internal/collector/topology.go:291-296 | between ids without `<->` the key forgets the direction and nothing else |
| Topology.SeparatorToldApart | internal/collector/topology.go:291-296 | an id with the separator whose key no other link has |
| Topology.KeysMatchEnds | internal/collector/topology.go:121-296 | links a snapshot with plain server ids offers share a key exactly when they join the same two nodes |
| Topology.SeparatorsCollide | internal/collector/topology.go:291-296 | two different links with one key when an id holds the separator |
| Topology.EndpointsAreNodes | internal/collector/topology.go:121-286 | every link joins two nodes when only answering servers have entries |
| Topology.PolledKeysWithin | internal/collector/collector.go:360-410 | in every interleaving of the servers' polls only answering servers have route, gateway, leaf or connection entries |
| Topology.FillMeans | internal/collector/collector.go:388-412 | what each answer of a polled server stores |

## Left out

- HTTP routing, JSON, cookies, JWT signing, password hashing, TLS, LDAP and OIDC: foreign code; a token's
  validity and a password match are given booleans.
- NATS connections, HTTP fetchers and SQLite: their results are inputs, each SQL statement one step.
- Supervised restarts of goroutines and the wait for them at shutdown.
- The metric-name switch of the scrape parser, rates, trends and histories: field assignments.
- Float parsing and formatting: `Exposition` keeps values as text, and bucket counts parse to themselves.
  Lines are sequences of characters, so invalid UTF-8 is not modelled.
- `ScrapeBuckets`: takes bucket lines already split into bound and count.
- The queue-age gauge of the metrics writer, its pruning of old rows, and busy and query-time counters.
- `MetricsWriter.Submit`, `MetricsWriter.Shutdown`: the class runs them undisturbed; interleavings are the
  event machine's.
- The client-address rules in front of the rate limiter and its cleanup ticker.
- Display name and e-mail of users, and the duration and event tables of the authenticator.
- Per-server fields of a snapshot beyond those carried forward are opaque documents.
- `Manager`: a name-only update is an in-place swap; the goroutines of one run are one run.
- `ConnzPaging.FetchServer`: servers are fetched one after another; results do not depend on the order.
- The cache of subscription rows and its single flight; only the loading behind it is modelled.
- `ClusterSecrets`: URLs are parsed values, so a reprinted URL that differs in spelling is not modelled;
  the creation time and the live collector calls are left out.
- `FleetQuery.FleetIsSumOfBridges`: one value column, since columns are aggregated independently; sums are
  exact, not floating point. A row with an empty bridge id counts in the fleet but has no series a client
  could ask for.
- `Topology.BuildTopology`: names, health, counts and rates of nodes and links; a link's direction is that
  of the first server walked.
- `internal/logbuf`, `internal/ws`, `internal/config`, the user interface and the scripts: the log ring
  buffer, the websocket hub, the validation of the configuration file, the pages, and load generation.
