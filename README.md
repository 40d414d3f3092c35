# Media platform control plane — registries and monitoring store

This project models, in Dafny, the five in-memory registries of the Go back end
of a media-streaming platform. Each registry is mirrored into a key-value store
(Redis in the original):

- **SRT inputs** (`SrtInput`, from `platform/srt-input.go`): input
  descriptors with default ports, a port range check and a ceiling of two
  sessions. There is also a second map of ephemeral SRT sessions. A session
  is admitted after counting the input's existing sessions. Deleting an input
  deletes its sessions with it.
- **Bypass-transcode tasks** (`BypassTranscode`, from
  `platform/bypass-transcode.go`): a task is checked against the sets of
  input types, output types and bypass modes. It is written to the store
  first and installed in memory after that. The filter stage passes data
  through unchanged.
- **Generic stream records** (`StreamControl`, from
  `platform/stream-control.go`): a type→port default table and name and port
  checks. Update is an upsert. There is a direction filter. The map can be
  rebuilt from the store (`LoadStreamsFromRedis`).
- **HLS inputs** (`HlsInput`, from `platform/hls-input.go`): the URL must be
  http(s) at creation (but not at update). Updates keep the creation time.
- **Monitoring store** (`Monitoring`, from `platform/monitoring.go`):
  - samples go to memory and, best effort, to the store together with a
    time-stamp index;
  - queries filter by type, an inclusive time window and a stream id;
  - results can be aggregated by day, week or month;
  - the latest sample of each family can be read;
  - eviction follows a retention window;
  - the configuration can be replaced.

Supporting modules:

- `Common`: the Option and outcome types, the registry error kinds, fresh
  ids and prefixed store keys, the store mirror shared by the task and HLS
  registries, and enumerations of a map in iteration order.
- `KeyValue`: the store, a `map<string, V>` class whose `Set` and `Del`
  succeed exactly when an `online` argument says the store answered.
- `Calendar`: the civil date of a Unix time stamp and the period keys used
  by aggregation.

Each registry is a `class` whose `map` fields the methods update in place. A
method's contract gives the error it returns, in the source's order of
checks, and the exact new state of memory and of the store. The classes also
carry invariants:

- `Valid`: each record is filed under its own id. For SRT, every session
  belongs to an existing input and no input has more sessions than its
  ceiling of two.
- `Mirrored` or `Synced`: the store holds what memory holds. For SRT inputs the cached session count is exempt, since it changes in memory only. For stream records the store also holds nothing memory lacks.

Reads that walk a Go map return their results in the map's iteration order,
which Go leaves unspecified. Their contract says that the result lists the
values for *some* enumeration of the keys.

The clock (`now`), fresh UUIDs (`freshId`, `sid`, `freshIds`) and the outcome
of each store call (`online`, `keysOnline`, `unreadable`) are parameters.
Store records are the Go structs themselves. For monitoring samples, the
JSON round trip is modelled explicitly: integer metadata comes back as
floating-point numbers.

The model follows the code, including where its behaviour may surprise a
caller. The two exceptions are the bugs listed under "## Findings": there the
operation uses the corrected definition, and the as-written one is modelled
beside it. Points worth knowing:

- **Deletes:** `DeleteInput`, `DeleteTask` and `DeleteStream` do not check
  that the id exists; deleting an unknown id succeeds.
- **Stream updates:** `UpdateStream` installs an id it has never seen.
- **Start operations:** a `Start*` operation marks the record active in
  memory even when the store write fails.
- **Retention:** `retentionDays` is never checked to be positive.

## Model

| member | source | states |
|---|---|---|
| SrtInput.SessionCountAfterInsert | platform/srt-input.go:398 | inserting a session raises only its own input's session count, by at most one, and by exactly one for a new session id |
| SrtInput.SessionCountAfterRemove | platform/srt-input.go:419 | removing a session lowers its own input's count by exactly one and leaves every other input's count alone |
| SrtInput.AdmitWithinCeiling | platform/srt-input.go:377-399 | admitting a session to an input below its ceiling keeps every input within its ceiling |
| SrtInput.InstallKeepsValid | platform/srt-input.go:244-276 | installing a record with a non-empty id and the fixed ceiling of 2 keeps the registry invariant |
| SrtInput.AdmitKeepsValid | platform/srt-input.go:384-399 | the admission step (a new session, the owner's count refreshed) keeps the registry invariant |
| SrtInput.ReleaseKeepsValid | platform/srt-input.go:419 | dropping a session keeps the registry invariant |
| SrtInput.RecountKeepsValid | platform/srt-input.go:414-417 | changing an input's cached count keeps the registry invariant |
| SrtInput.DeleteKeepsValid | platform/srt-input.go:326-332 | dropping an input together with all its sessions keeps the registry invariant |
| SrtInput.MirrorAfterInstall | platform/srt-input.go:269-276 | writing a record to the store under its key and installing it in memory preserves the mirror (the store agrees with memory on every field but the cached session count) |
| SrtInput.MirrorAfterDelete | platform/srt-input.go:320-332 | deleting the key and the input preserves the mirror |
| SrtInput.MirrorAfterRecount | platform/srt-input.go:414-417 | the cached count is memory-only, so recounting preserves the mirror |
| SrtInput.PruneStep | platform/srt-input.go:326-330 | one step of the cascade loop removes the visited session exactly when it belongs to the deleted input |
| SrtInput.SrtInputManager.constructor | platform/srt-input.go:58-67 | the registry starts empty and satisfies its invariants |
| SrtInput.SrtInputManager.CreateInput | platform/srt-input.go:234-279 | fills a missing id, stamps the times, sets status inactive and MaxStreams=2, and replaces each port ≤ 0 by 10080/10081/10082; fails on a port above 65535 in check order, or on a store failure, and then changes nothing; on success every port is in 1..65535 and store and memory gain the record |
| SrtInput.SrtInputManager.UpdateInput | platform/srt-input.go:281-309 | fails on an empty or unknown id or a store failure without changes; otherwise installs the caller's record with the old CreatedAt and MaxStreams forced to 2 |
| SrtInput.SrtInputManager.DeleteInput | platform/srt-input.go:311-335 | fails on an empty id or a store failure without changes; otherwise removes the input and exactly the sessions of that input, leaving the others untouched |
| SrtInput.SrtInputManager.GetAllInputs | platform/srt-input.go:337-346 | every input once, in some enumeration order of the map |
| SrtInput.SrtInputManager.GetInput | platform/srt-input.go:348-352 | the input under the id, absent exactly when there is none |
| SrtInput.SrtInputManager.GetStreamsByInput | platform/srt-input.go:354-365 | exactly the sessions bound to the input, each once |
| SrtInput.SrtInputManager.CountSessions | platform/srt-input.go:377-382 | the count loop yields the number of sessions bound to the input |
| SrtInput.SrtInputManager.AddStream | platform/srt-input.go:367-403 | fails on an unknown input or when its count is at MaxStreams, changing nothing; otherwise adds one connected session and sets StreamCount to the previous count + 1; keeps the ceiling invariant |
| SrtInput.SrtInputManager.RemoveStream | platform/srt-input.go:405-422 | fails on an unknown session; otherwise removes only that session, lowering its input's count by one and decrementing the cached StreamCount |
| SrtInput.SrtInputManager.StartInput | platform/srt-input.go:424-456 | unknown input fails; otherwise the record is active in memory and, when the store answers, in the store too |
| SrtInput.AdmissionScenario | platform/srt-input.go:377-386 | on a fresh input, two sessions are admitted, the third is refused with max-streams-reached, and after one leaves a new one is admitted |
| SrtInput.DeleteScenario | platform/srt-input.go:325-332 | after deleting an input, neither it nor any of its sessions remains |
| SrtInput.OfflineStartScenario | platform/srt-input.go:435-442 | starting with the store unreachable leaves memory active and the stored copy inactive |
| BypassTranscode.ValidateConfig | platform/bypass-transcode.go:301-327 | succeeds iff input type ∈ {hls,srt,rtmp}, output type ∈ {rtmp,hls,srt} and mode ∈ {passthrough,filter}; otherwise names the first offending field and value |
| BypassTranscode.ValidationIgnoresOtherFields | platform/bypass-transcode.go:301-327 | validation depends on the three checked fields only |
| BypassTranscode.ApplyFilters | platform/bypass-transcode.go:362-371 | returns the input bytes unchanged and no error |
| Common.MirrorsAfterInstall | platform/bypass-transcode.go:208-215 | writing a record under its prefixed key and then installing it in memory preserves the mirror; shared by the task and HLS registries (platform/hls-input.go:205-212) |
| Common.MirrorsAfterDelete | platform/bypass-transcode.go:263-268 | deleting the key and then the entry preserves the mirror; shared by the task and HLS registries (platform/hls-input.go:255-260) |
| BypassTranscode.BypassTranscodeManager.constructor | platform/bypass-transcode.go:47-55 | starts empty, valid and mirrored |
| BypassTranscode.BypassTranscodeManager.CreateTask | platform/bypass-transcode.go:191-218 | stamps id, times and status inactive; a failed validation or store write changes nothing; on success a non-empty id is installed in store and memory |
| BypassTranscode.BypassTranscodeManager.UpdateTask | platform/bypass-transcode.go:220-252 | fails on an empty or unknown id, a failed validation or a store failure without changes; otherwise installs the record with the old CreatedAt |
| BypassTranscode.BypassTranscodeManager.DeleteTask | platform/bypass-transcode.go:254-271 | an empty id is refused; a store failure changes nothing; otherwise only the id is removed, present or not |
| BypassTranscode.BypassTranscodeManager.GetAllTasks | platform/bypass-transcode.go:273-282 | every task once, in some enumeration order |
| BypassTranscode.BypassTranscodeManager.GetTask | platform/bypass-transcode.go:284-288 | the task under the id, absent exactly when there is none |
| BypassTranscode.BypassTranscodeManager.StartTask | platform/bypass-transcode.go:290-299 | unknown task fails; otherwise the task is active in memory and, when the store answers, in the store (an installed task always validates) |
| BypassTranscode.ValidationScenario | platform/bypass-transcode.go:319-324 | mode "transcode" is refused naming the bypass mode; "passthrough" is accepted and stored inactive |
| StreamControl.StreamKeys | platform/stream-control.go:345 | reference function: the store keys the pattern `stream:*` lists, that is, those with the literal prefix |
| StreamControl.StreamKeyOfSuffix | platform/stream-control.go:345 | a listed `stream:` key is the key of its own suffix |
| StreamControl.SyncAfterInstall | platform/stream-control.go:265-272 | writing then installing a record keeps store and memory in sync |
| StreamControl.SyncAfterDelete | platform/stream-control.go:301-306 | deleting key and record keeps them in sync |
| StreamControl.Loaded | platform/stream-control.go:350-364 | reference function of the load loop: each readable entry visited in order is installed under the id it carries; its properties are proved in LoadedKeys, LoadedLastWins, LoadedUntouched and LoadedKeepsValid |
| StreamControl.LoadedKeys | platform/stream-control.go:350-364 | the rebuilt map holds the old ids plus the ids of every readable entry |
| StreamControl.LoadedLastWins | platform/stream-control.go:363 | an entry read after every other entry with the same id is what remains installed |
| StreamControl.LoadedUntouched | platform/stream-control.go:350-364 | an id no readable entry carries keeps its old record, or stays absent |
| StreamControl.LoadedKeepsValid | platform/stream-control.go:363 | every loaded record is filed under its own id |
| StreamControl.LoadedFromSynced | platform/stream-control.go:350-364 | from a synced store, loading a list of keys into an empty map yields exactly those records |
| StreamControl.RestoreAfterRestart | platform/stream-control.go:341-368 | loading all keys of a synced store into an empty map gives back the original map |
| StreamControl.StreamManager.constructor | platform/stream-control.go:47-55 | starts empty and valid |
| StreamControl.DefaultPort | platform/stream-control.go:243-254 | a default exists exactly for rtmp, srt, hls and webrtc, and every default is a valid port |
| StreamControl.Defaulted | platform/stream-control.go:231-254 | reference predicate of the defaults, stated once for FillDefaults and CreateStream: a fresh id when none was given, both time stamps now, inactive and not connected, type rtmp when none was given, the type's default port for a port ≤ 0 |
| StreamControl.StreamManager.FillDefaults | platform/stream-control.go:231-254 | type "" becomes rtmp; a port ≤ 0 becomes 1935/10080/8080/8000 for rtmp/srt/hls/webrtc and stays otherwise; status inactive, not connected |
| StreamControl.StreamManager.CreateStream | platform/stream-control.go:227-275 | defaults as above; fails on an empty name, a port outside 1..65535 after defaulting, or a store failure, changing nothing; otherwise installs in store and memory |
| StreamControl.StreamManager.UpdateStream | platform/stream-control.go:277-294 | no checks: on a store success installs the record under its id, otherwise changes nothing |
| StreamControl.StreamManager.DeleteStream | platform/stream-control.go:296-309 | on a store success removes the id, otherwise changes nothing |
| StreamControl.StreamManager.GetStreamsByDirection | platform/stream-control.go:311-322 | exactly the records with that direction, each once |
| StreamControl.StreamManager.GetAllStreams | platform/stream-control.go:324-333 | every record once |
| StreamControl.StreamManager.GetStream | platform/stream-control.go:335-339 | the record under the id, absent exactly when there is none |
| StreamControl.StreamManager.LoadStreamsFromRedis | platform/stream-control.go:341-368 | a failed key listing changes nothing; otherwise each readable entry is installed under its own id in listing order and unreadable ones are skipped |
| StreamControl.RestartScenario | platform/stream-control.go:243-246 | a stream created with no port gets 1935, and reloading into a fresh registry gives it back unchanged |
| HlsInput.HlsInputManager.constructor | platform/hls-input.go:44-52 | starts empty, valid and mirrored |
| HlsInput.IsHttpUrl | platform/hls-input.go:200 | reference predicate: the URL starts with `http://` or `https://`; CreateInput refuses the input exactly when it fails |
| HlsInput.HlsInputManager.CreateInput | platform/hls-input.go:188-215 | stamps id, times and status inactive; fails on a URL that is not http:// or https://, or on a store failure, changing nothing; otherwise installs it |
| HlsInput.HlsInputManager.UpdateInput | platform/hls-input.go:217-244 | fails on an empty or unknown id or a store failure without changes; otherwise installs with the old CreatedAt and no URL check |
| HlsInput.HlsInputManager.DeleteInput | platform/hls-input.go:246-263 | an empty id is refused; a store failure changes nothing; otherwise only that id goes |
| HlsInput.HlsInputManager.GetAllInputs | platform/hls-input.go:265-274 | every input once |
| HlsInput.HlsInputManager.GetInput | platform/hls-input.go:276-280 | the input under the id, absent exactly when there is none |
| HlsInput.HlsInputManager.StartInput | platform/hls-input.go:282-309 | unknown input fails; otherwise active in memory and, when the store answers, in the store |
| HlsInput.UnvalidatedUpdateScenario | platform/hls-input.go:200-241 | an rtmp URL is refused at creation, yet an update installs it |
| Calendar.LayoutKey | platform/monitoring.go:373-385 | the key `Format` prints for each layout as written: a full date for daily only; weekly and monthly print year and month, and no layout yields a week number |
| Calendar.WeekBounds | platform/monitoring.go:377 | every Monday-aligned week starts on a Monday and spans seven days |
| Calendar.ParsePeriod | platform/monitoring.go:373-382 | recognises exactly daily, weekly and monthly |
| Calendar.WeeklyLayoutIsMonthly | platform/monitoring.go:376-379 | as written, two instants share a weekly key iff they share a monthly key |
| Calendar.WeeklyLayoutCounterexample | platform/monitoring.go:377-378 | 2024-01-01 and 2024-01-29, four weeks apart, share the weekly key as written |
| Calendar.CivilFromDaysInJanuary2024 | platform/monitoring.go:385 | the dates of the days of January 2024 |
| Calendar.BucketKey | platform/monitoring.go:373-385 | reference function of the corrected period key: daily and monthly as LayoutKey, weekly the Monday-aligned week index; proved in WeeklyBucketIsWeek, WeeklyBucketSeparatesCounterexample, SameDaySameBucket and DailyRefinesMonthly |
| Calendar.WeeklyBucketIsWeek | platform/monitoring.go:377-378 | corrected: two instants share a weekly bucket iff they are in the same Monday-to-Sunday week, hence less than 7 days apart |
| Calendar.WeeklyBucketSeparatesCounterexample | platform/monitoring.go:377-378 | corrected: the two Mondays of the counterexample fall in different buckets |
| Calendar.SameDaySameBucket | platform/monitoring.go:385 | every period key depends on the day alone |
| Calendar.DailyRefinesMonthly | platform/monitoring.go:374-379 | instants in one daily bucket share the monthly bucket |
| Monitoring.SampleKey | platform/monitoring.go:302 | reference function: the store key `monitoring:<type>:<id>` of a sample |
| Monitoring.IndexKey | platform/monitoring.go:312 | reference function: the store key `monitoring:timestamp:<type>:<unix seconds>` of an index entry |
| Monitoring.MatchingKeys | platform/monitoring.go:325-326 | reference function: the keys the pattern `monitoring:<type>:*` lists, that is, those with that literal prefix |
| Monitoring.JsonRoundTrip | platform/monitoring.go:338-341 | the decoded sample is the stored one with the same metadata keys and no integer left in them |
| Monitoring.Keep | platform/monitoring.go:344-352 | reference predicate of the three query filters: an absent bound does not restrict, both bounds are inclusive, an empty stream id matches every sample; used by SelectedMembers |
| Monitoring.Selected | platform/monitoring.go:332-355 | reference function of the scan loop: visiting the keys in order, the decoded samples that pass the filters, appended in that order; membership is proved in SelectedMembers and CollectSamples is proved equal to it |
| Monitoring.SelectedMembers | platform/monitoring.go:332-355 | a sample is collected iff it decodes from a visited key, is at or after the start (if any), at or before the end (if any) and matches a non-empty stream id |
| Monitoring.Open | platform/monitoring.go:398-407 | reference function: the record that opens a bucket, a copy of its first sample with a fresh id and metadata sample_count 1 and the period; its effect on the result is proved in AggregateBucket |
| Monitoring.Absorb | platform/monitoring.go:387-397 | reference function: a later sample of a bucket adds its value and raises an integer sample_count by one (resets a missing one to 1); its effect is proved in AggregateBucket |
| Monitoring.Aggregate | platform/monitoring.go:384-409 | reference function of the bucket loop for any key function: each sample opens its key's bucket or is absorbed into it; its keys, sums and counts are proved in AggregateKeys, AggregateBucket, BucketEmpty and BucketCountAll, and BuildBuckets is proved equal to it |
| Monitoring.AggregateKeys | platform/monitoring.go:384-409 | one record per distinct bucket key among the samples |
| Monitoring.BucketEmpty | platform/monitoring.go:384-409 | a bucket no sample falls into has sum 0 and count 0 |
| Monitoring.AggregateBucket | platform/monitoring.go:384-409 | each bucket's record is its first sample (same time stamp) with a fresh id, the sum of the bucket's values and metadata sample_count = number of samples, period = the period |
| Monitoring.BucketCountAll | platform/monitoring.go:393-397 | when all samples share a bucket, its count is their number |
| Monitoring.SameDayAggregatesToOne | platform/monitoring.go:384-409 | samples of one day aggregate, under any period, to a single record whose value is the sum of their values and whose sample_count is their number |
| Monitoring.RetentionAsWritten | platform/monitoring.go:478 | the retention in `int64` nanoseconds, wrapped as Go wraps it: always within the `int64` range, and equal to days·86400·10⁹ for retentions within ±106751 days |
| Monitoring.ExpiredAsWritten | platform/monitoring.go:479-484 | reference predicate of the eviction test as written: the sample time is before now plus the wrapped negated retention; related to the corrected test by ExpiredAsWrittenInRange and RetentionOverflowCounterexample |
| Monitoring.Expired | platform/monitoring.go:478-484 | reference predicate of the corrected eviction test: older than now − days·86400; agrees with ExpiredAsWritten for ±106751 days (ExpiredAsWrittenInRange) |
| Monitoring.Retained | platform/monitoring.go:478-487 | reference function: the samples that are not Expired, which CleanupOldData is proved to leave |
| Monitoring.ExpiredAsWrittenInRange | platform/monitoring.go:478-484 | for retentions within ±106751 days the cutoff as written is "older than now − days·86400" |
| Monitoring.RetentionOverflowCounterexample | platform/monitoring.go:478-479 | as written, 106752 days wraps negative and a sample taken now is evicted |
| Monitoring.MonitoringManager.constructor | platform/monitoring.go:54-70 | enabled, sampling every 5 s, retention 30 days, no samples |
| Monitoring.MonitoringManager.StoreMetric | platform/monitoring.go:294-316 | the sample always enters memory; the store gets it when its write answers, and the index only after that and when its own write answers; nothing is reported |
| Monitoring.MonitoringManager.CollectSamples | platform/monitoring.go:324-355 | nothing when the key listing fails; otherwise, in listing order, the decoded samples that pass the filters |
| Monitoring.MonitoringManager.QueryData | platform/monitoring.go:318-363 | the collected samples, aggregated by the period when one is given |
| Monitoring.MonitoringManager.AggregateByPeriod | platform/monitoring.go:365-418 | the input when it is empty or the period is unknown; otherwise the bucket records, each once |
| Monitoring.MonitoringManager.BuildBuckets | platform/monitoring.go:384-409 | for any key function, the accumulation loop builds exactly the bucket map Aggregate gives for the samples in order; the key function is the caller's, so the loop holds for the as-written LayoutKey as well as the corrected BucketKey |
| Monitoring.MonitoringManager.ListBuckets | platform/monitoring.go:411-417 | every bucket record once |
| Monitoring.MonitoringManager.Latest | platform/monitoring.go:427-444 | absent iff no sample has the type; otherwise a sample of that type with maximal time stamp |
| Monitoring.MonitoringManager.GetRealTimeMetrics | platform/monitoring.go:420-455 | the latest bandwidth and concurrent_streams samples, each absent when there is none, and the current time stamp |
| Monitoring.MonitoringManager.UpdateConfig | platform/monitoring.go:457-474 | installs the new configuration with the old CreatedAt before the store write, so it stays installed when the write fails, which is reported |
| Monitoring.MonitoringManager.CleanupOldData | platform/monitoring.go:476-489 | removes exactly the in-memory samples older than now − retentionDays·86400; with a non-negative retention no sample from now or later goes |
| Monitoring.RealTimeScenario | platform/monitoring.go:426-450 | with samples at 100 and 200 s, the real-time view shows the later bandwidth sample and the only stream count |
| Monitoring.QueryScenario | platform/monitoring.go:302-354 | a stored sample is returned by an unfiltered query with its integer metadata turned into numbers, and its index entry is not listed |

## Left out

- The `Handle` methods are left out: HTTP routing, body parsing, authentication and response writing are transport code around the registries. They are also where the source has a field name that does not exist (`TranscodeConfig` in the monitoring configuration update handler).
- `StartMonitoring`, `collectMetrics`, `collectBandwidthMetrics` and `collectConcurrentStreamMetrics` are left out: a ticker loop feeding hard-coded example samples into `storeMetric`, which is modelled.
- Locks, goroutines and concurrency are not modelled. Each method is one atomic step. The `process*` goroutines started by `StartInput`/`StartTask` are run to completion inside the start method.
- JSON marshalling is not modelled. Stored values are the records themselves, except that a monitoring sample's integer metadata decodes as floating-point numbers. The marshalling error branches cannot be taken and are not modelled.
- The store's expiry times (TTL) and the glob syntax of `Keys` are not modelled. A key listing is the set of keys with the literal prefix. A type containing `*`, `?` or `[` would match differently in Redis.
- Time is whole Unix seconds in UTC. Nanoseconds, monotonic clock readings and time zones (Go formats a key in the sample's own zone) are not modelled.
- The `New*Manager` functions return a process-wide singleton, and all five registries share one store client. The model's constructors build a fresh manager on a store of its own. The behaviour is the same because the five key prefixes are disjoint.
- Metric values are reals, not `float64`, so sums are exact.
- `uuid.New()` and `time.Now()` are parameters: one fresh id and one instant per call. For aggregation, `freshIds(i)` is the id of the bucket opened by sample `i`.
- Monitoring.MonitoringManager.QueryData: the Go signature declares the start and end times as `string` and then calls `IsZero`/`Before` on them, which does not compile. The model follows the handler, which passes `time.Time` values: a zero time is an absent bound.
- Monitoring.MonitoringManager.CleanupOldData: uses the corrected cutoff (see Findings). The as-written cutoff is `ExpiredAsWritten` and agrees with it for retentions of up to 106751 days (`ExpiredAsWrittenInRange`).
- Monitoring.MonitoringManager.AggregateByPeriod: buckets by the corrected weekly key (see Findings). Daily and monthly keys are as written. AggregateByPeriod is where the key function is chosen: it passes `BucketOf(p)` to BuildBuckets.
- Monitoring.MonitoringManager.QueryData: it aggregates through AggregateByPeriod, so its weekly buckets are also the corrected Monday-aligned weeks, not the year-and-month buckets of the code as written.
- SrtInput.SrtInputManager.RemoveStream: the branch where the owning input is gone is kept, but it cannot be reached. The registry invariant binds every session to an existing input, and `DeleteInput` removes an input's sessions with it.

## Findings

| source | as written | input that shows it | evidently intended | confidence | as-written member | corrected member |
|---|---|---|---|---|---|---|
| platform/monitoring.go:377-378 | the weekly layout `2006-W01` prints the year, a literal `W` and the month, so weekly buckets are monthly buckets | 2024-01-01 and 2024-01-29 (Unix 1704067200 and 1706486400) share the key `2024-W01` | one bucket per week | high, not executed | Calendar.WeeklyLayoutCounterexample | Calendar.WeeklyBucketIsWeek |
| platform/monitoring.go:478-479 | `time.Duration(RetentionDays) * 24 * time.Hour` is an `int64` count of nanoseconds that wraps above 106751 days, which moves the cutoff into the future | retention 106752 days, now = sample time = 1700000000: the fresh sample is evicted | keep samples younger than the retention | medium, not executed | Monitoring.RetentionOverflowCounterexample | Monitoring.MonitoringManager.CleanupOldData |
