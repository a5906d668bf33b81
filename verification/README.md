# youtube_slack in Dafny

A model of the core of youtube_slack, a service that watches YouTube channels and posts a Slack message for each new upload.

- **Store.** Registered webhooks and channels live in a SQLite store (`utils/db_manager.py`).
- **Routes.** The HTTP routes register and delete them (`apis/channel.py`, `apis/webhook.py`).
  - Channel registration resolves a handle through the YouTube Data API client (`utils/youtube_api.py`), which keeps a running quota tally.
- **Poll cycle.** A background task (`main.py`) runs the poll cycle every `CHECK_INTERVAL` seconds:
  - it reads every channel;
  - it asks the provider, in one batch, for uploads of the last hour;
  - it posts one notification per upload through the channel's webhook (`utils/slack_sender.py`);
  - it writes a watermark (`last_check_at`) for every channel that had uploads.

The model is functional. Each piece of state is a value that the operations take and return.

| module | file | what it models |
|---|---|---|
| `Base` | base.dfy | `Option`, `Result`, the HTTP `Response`, `Filter`, `Flatten` |
| `Store` | store.dfy | the two tables as maps keyed by rowid, with AUTOINCREMENT counters and the `update_at` trigger; every query and write of `DatabaseManager` |
| `Provider` | provider.dfy | the `YouTubeAPI` singleton and its quota tally; `get_channel_info`; `check_new_videos_batch`. The provider itself is an oracle (`Api`) that answers each request with items or an exception. |
| `Notifier` | notifier.dfy | `send_notification`: destination lookup, the three message blocks, the 200 check. The HTTP transport is an oracle. |
| `Poller` | poller.dfy | one run of `check_new_videos`, both as the code performs it (`CheckNewVideos`, threading the store) and as a pure function of its inputs (`Run`), with the proof that they agree |
| `Scheduler` | scheduler.dfy | `start_background_task`, `stop_background_task` and the rescheduling `finally` block, as asyncio tasks that are pending or sleeping |
| `ChannelRoutes` | channel_routes.dfy | `POST /channels` and `DELETE /channels/{id}` |
| `WebhookRoutes` | webhook_routes.dfy | `POST /webhooks` and `DELETE /webhooks/{id}` |

## How time, I/O and randomness enter

- **Time.** Timestamps are integers (seconds, UTC).
  - The current time is a parameter `now` of every operation that reads the clock.
  - `format_utc` is a parameter `fmt`.
  - A run's lookback horizon is `now - 3600` (`Poller.Horizon`).
- **Provider.** Every provider request is answered by the `Api` oracle.
- **Webhooks.** Every webhook POST is answered by a transport oracle. In a run, that oracle also receives the call's sequence number, so that different calls may get different answers.
- **Event order.** The order in which the event loop resumes tasks is the sequence of `Scheduler.Event`s given to `Scheduler.Replay`.

## Where the code departs from its evident intent

The model follows the code in each case:

- **Runs are not idempotent.** The store keeps a per-channel watermark, `last_check_at`, which each run writes (main.py:85-87) and `get_last_check_time` reads back (utils/db_manager.py:230-242); this suggests incremental polling is intended. In the code, the horizon is always `now - 1h` (main.py:59), and the poller never reads `last_check_at`. A second run within the hour notifies the same videos again when the provider answers as before and no first-page upload was published between the two horizons (`Poller.BackToBackRunsResend`).
- **Provider ids can repeat.** A channel's provider id is evidently meant to be unique: `get_channel_by_yt_channel_id` returns a single row with `fetchone` (utils/db_manager.py:244-255), and the poll cycle addresses channels by provider id alone. The registration route only rejects a duplicate *handle* (apis/channel.py:22-27). Two handles that resolve to the same channel register it twice (`ChannelRoutes.SameChannelUnderTwoHandles`).
  - `get_channel_by_yt_channel_id` then returns the row of least id. `update_last_check_time` stamps every row with that id.
- **The batch charges no quota.** Its comments speak of quota, but the code charges nothing on that path (youtube_api.py:104-168). Only `get_channel_info` adds to the tally, at lines 66, 73 and 81.

## Model

| member | source | states |
|---|---|---|
| `Base.Filter` | utils/youtube_api.py:143-158 | keeps exactly the elements that satisfy the predicate, each as often as it occurs, in their original order (a subsequence) |
| `Base.FilterAgrees` | utils/youtube_api.py:150 | two predicates that agree on every element select the same subsequence |
| `Store.RowIds` | utils/db_manager.py:59-71 | a rowid scan visits exactly the live keys below the AUTOINCREMENT counter, strictly ascending |
| `Store.RowIdsDependOnKeysOnly` | utils/db_manager.py:181-186 | the scan order depends only on which rowids are live, not on row contents |
| `Store.Scan` | utils/db_manager.py:181-186 | the rows of a scan are the live rows, each at its key's position, and every live row appears |
| `Store.GetWebhook` | utils/db_manager.py:127-135 | returns a row exactly when that id is live, and then the stored row, carrying that id |
| `Store.AllWebhooks` | utils/db_manager.py:137-142 | every listed row is stored under its own id, every stored row is listed, and the list is strictly ascending by id |
| `Store.AddWebhook` | utils/db_manager.py:116-125 | the new rowid is the webhook AUTOINCREMENT counter's value, which then advances by one (so it was never used and exceeds every live id); only that row is added, both stamps set to the insertion time; channels and the channel counter untouched |
| `Store.DeleteWebhook` | utils/db_manager.py:144-150 | reports true exactly when the row existed; removes that row only and does not look at the channels referring to it; both AUTOINCREMENT counters are kept, so the deleted rowid is not handed out again |
| `Store.GetChannelById` | utils/db_manager.py:171-179 | returns a row exactly when that id is live, and then the stored row |
| `Store.AllChannels` | utils/db_manager.py:181-186 | every listed row is stored under its id, every stored row is listed, strictly ascending by id |
| `Store.ChannelsByWebhook` | utils/db_manager.py:188-193 | a row is listed if and only if it is stored and references that webhook |
| `Store.FirstRowId` | utils/db_manager.py:195-203 | none exactly when no row in the range qualifies; otherwise a qualifying rowid with no qualifying rowid below it |
| `Store.FirstChannel` | utils/db_manager.py:195-203 | `fetchone()` on a filtered select: none iff no row qualifies, otherwise the qualifying row of least id |
| `Store.ChannelByHandlingId` | utils/db_manager.py:195-203 | none iff no row has that handle; otherwise a stored row with that handle |
| `Store.ChannelByYtChannelId` | utils/db_manager.py:244-255 | none iff no row has that provider id; otherwise the stored row with that id of least rowid |
| `Store.AddChannel` | utils/db_manager.py:152-169 | the new rowid is the channel AUTOINCREMENT counter's value, which then advances by one (so it was never used and exceeds every live id); only that row is added, watermark and both stamps at the insertion time; webhooks and the webhook counter untouched |
| `Store.DeleteChannel` | utils/db_manager.py:205-211 | reports true exactly when the row existed; removes that row only; both AUTOINCREMENT counters are kept |
| `Store.DeletedRowIdNeverReused` | utils/db_manager.py:59-71 | a row added, deleted and followed by another add of the same kind: the second rowid is strictly larger than the first |
| `Store.UpdateLastCheckTime` | utils/db_manager.py:213-228 | every row with that provider id takes the given time (or now) and the trigger's update stamp; every other row, the webhooks and both counters are unchanged; reports whether any row matched |
| `Store.LastCheckTime` | utils/db_manager.py:230-242 | the watermark of the first row with that provider id, or the current time when none exists |
| `Store.FreshStore` | utils/db_manager.py:49-80 | a store created on a new file lists no webhooks and no channels, and the first webhook and the first channel added each get rowid 1 |
| `Store.WatermarkReadBack` | utils/db_manager.py:213-242 | after a watermark write that matched, reading the watermark returns the value written |
| `Store.UpdateChangesOnlyWatermarks` | utils/db_manager.py:99-106 | the watermark write changes nothing but `last_check_at` and `update_at` of channel rows |
| `Store.AllChannelsOnVariants` | utils/db_manager.py:181-186 | on two stores differing only in watermarks, the channel scan returns the same rows position by position up to watermarks |
| `Store.ChannelByYtOnVariants` | utils/db_manager.py:244-255 | the provider-id lookup finds the same row, up to watermarks, on two such stores |
| `Provider.Initialize` | utils/youtube_api.py:35-40 | the first call creates a client with a zero tally; later calls return the existing client unchanged |
| `Provider.InitializeIsIdempotent` | utils/youtube_api.py:35-40 | initialising twice is initialising once |
| `Provider.GetInstance` | utils/youtube_api.py:42-46 | succeeds exactly when initialised, returning that client; errs otherwise |
| `Provider.QuotaAfterFirstLookup` | utils/youtube_api.py:170-172 | `get_daily_quota_used` reports 0 for a freshly initialised client and 1 or 101 after its first lookup |
| `Provider.StripAt` | utils/youtube_api.py:62 | the result is a suffix of the input, everything removed is '@', and the result does not start with '@' |
| `Provider.Resolve` | utils/youtube_api.py:61-87 | a handle of `UC` shape sends one id lookup; any other sends a username lookup, followed by a search on the raw handle exactly when the username lookup returned no items; the tally grows by the cost of the requests sent |
| `Provider.ChannelIdAsWritten` | utils/youtube_api.py:94 | the id expression as written succeeds exactly on search hits |
| `Provider.ChannelIdOf` | utils/youtube_api.py:94 | the corrected expression agrees with the written one wherever the written one succeeds |
| `Provider.ReadReply` | utils/youtube_api.py:89-100 | an exception is a request failure, no items is "not found", otherwise the first item's id and title |
| `Provider.GetChannelInfo` | utils/youtube_api.py:48-100 | sends exactly the requests of the resolution order (by id for a `UC` handle; else by username, then a search when that came back empty); the tally grows by 1, or by 101 when the username lookup came back empty, whatever the outcome; the result is read from the last reply: failure on an exception, not found on no items, else the first item's channel |
| `Provider.GetChannelInfoAsWritten` | utils/youtube_api.py:48-100 | same requests and charges as the corrected lookup and never succeeds differently; read from the last reply: failure on an exception, not found on no items, failure when the first item is a channel resource, and that search hit's channel id and title when it is a search result |
| `Provider.LookupChargesOneOrOneHundredOne` | utils/youtube_api.py:66-81 | every lookup adds exactly 1 or 101 units to the tally |
| `Provider.ChannelIdHandleFailsAsWritten` | utils/youtube_api.py:65-96 | a `UC`-shaped handle that the provider answers with a channel resource fails as written, at a charge of one unit, and resolves to that channel when corrected |
| `Provider.PlaylistMapping` | utils/youtube_api.py:124-129 | every reply entry's channel is mapped, and every mapping comes from some reply entry |
| `Provider.PlaylistMappingLastWins` | utils/youtube_api.py:124-129 | a channel maps to the playlist of its last entry in the reply |
| `Provider.Page` | utils/youtube_api.py:137-141 | at most five items, a prefix of the playlist, and all of it when it is shorter |
| `Provider.NewUploads` | utils/youtube_api.py:143-158 | at most five uploads, all from the first page and strictly newer than the horizon, including every such upload as often as the page lists it, in page order |
| `Provider.CheckNewVideosBatch` | utils/youtube_api.py:104-168 | the tally is untouched; fails exactly when the playlist lookup raises; otherwise a channel appears iff it is mapped and its page has a new upload, with exactly those uploads, non-empty, at most five, all after the horizon |
| `Provider.Findings` | utils/youtube_api.py:134-162 | a mapped channel is present iff its findings are non-empty, and then holds exactly them |
| `Provider.BatchIsolatesPlaylistFailures` | utils/youtube_api.py:160-162 | a raising playlist request drops only the channels mapped to that playlist; every other channel's findings are unchanged |
| `Notifier.Blocks` | utils/slack_sender.py:36-58 | three sections: the fixed announcement text followed by the channel name, the linked title, the fixed time label followed by the upload time |
| `Notifier.LinkRoundTrip` | utils/slack_sender.py:48 | for a URL without '\|', the link markup reads back to exactly the URL and title sent |
| `Notifier.Send` | utils/slack_sender.py:13-81 | sends iff a row with that provider id exists and its webhook exists, and then to that webhook's URL with that row's channel name; true exactly on status 200; false without sending otherwise; never raises |
| `Notifier.SendOnVariants` | utils/slack_sender.py:25-33 | the notifier's result does not depend on watermarks |
| `Notifier.SendIgnoresWatermarks` | utils/slack_sender.py:25-33 | a notification after a watermark write behaves as before it |
| `Poller.Successes` | main.py:82-83 | the number of successes never exceeds the number of calls |
| `Poller.SuccessesAppend` | main.py:69-83 | the success count over two stretches of calls is the sum of the counts |
| `Poller.DispatchMeetsPlan` | main.py:68-87 | the calls are one per found video, in channel-list then provider order; the count is the number of successful calls; a watermark is written exactly for listed channels with a video |
| `Poller.DispatchAttempts` | main.py:70-81 | the calls made are the planned ones, in the planned order |
| `Poller.DispatchCount` | main.py:69-83 | `notification_count` is the number of calls the notifier reports as successful |
| `Poller.DispatchWrites` | main.py:85-87 | a provider id is written iff it is listed and has at least one found video |
| `Poller.Run` | main.py:33-87 | no channels, or a failed batch, does nothing; otherwise the calls are the planned ones, the writes are exactly the listed ids with videos, and the count is the number of successes, at most the number of calls |
| `Poller.CheckNewVideos` | main.py:33-97 | the quota tally is untouched; only watermarks change; each row is stamped with the run's `now` exactly when its provider id was written, and is otherwise unchanged |
| `Poller.LoopWritesWatermarks` | main.py:68-87 | the threaded loop leaves every written row stamped and every other row, and the webhooks, unchanged |
| `Poller.NotifyAllCounts` | main.py:73-83 | counting successes against the store as it stands mid-run equals counting against the starting store |
| `Poller.MessageOf` | main.py:76-80 | the message carries the video's title and formatted time, and a watch URL made of the fixed `watch?v=` prefix followed by exactly the video id |
| `Poller.NotifyAll` | main.py:73-83 | a channel's count never exceeds its number of videos, and is 0 when no row has that provider id |
| `Poller.Dispatch` | main.py:69-87 | the pure channel loop counts no more successes than calls and writes at most one watermark per listed channel |
| `Poller.Loop` | main.py:69-87 | the store-threading channel loop leaves the webhook table untouched, counts no more successes than calls and writes at most one watermark per channel |
| `Poller.LoopIsDispatch` | main.py:68-87 | the loop as the code runs it, threading the store, makes the same calls, counts and writes as the pure dispatch |
| `Poller.CheckNewVideosIsRun` | main.py:33-87 | a run's observable result is the pure `Run` of the listed ids, the batch outcome and the starting store's notifier |
| `Poller.PlannedMembers` | main.py:70-81 | a call is planned iff its channel is listed and its video was found for that channel |
| `Poller.PlannedFromFound` | main.py:57-81 | every planned call is for a listed channel and a video after the horizon |
| `Poller.RunNotifiesRecentUploads` | main.py:57-81 | every notifier call of a run is for an upload published in the last hour, on a channel that has a row in the store |
| `Poller.ListedIdHasRow` | main.py:41-55 | a listed provider id belongs to a stored row |
| `Poller.DispatchOnAgreeing` | main.py:73-83 | the dispatch depends on the notifier only through its answers |
| `Poller.RunIgnoresStoredWatermarks` | main.py:33-87 | a run never reads the watermarks: on two stores differing only in watermarks it makes the same calls, counts and writes |
| `Poller.BatchAcrossQuietHorizons` | main.py:57-63 | moving the horizon forward over a stretch with no uploads leaves the batch result unchanged |
| `Poller.FindingsAcrossQuietHorizons` | utils/youtube_api.py:143-158 | the same for one playlist's findings |
| `Poller.BackToBackRunsResend` | main.py:57-87 | with the same provider replies (one `api`) serving both runs and no first-page upload published after the first horizon and by the second (in (t1−1h, t2−1h]), a second run on the store the first one left calls the notifier for exactly the same videos and writes the same watermarks |
| `Poller.IdleRunChangesNothing` | main.py:41-66 | with no channels, or when the batch raises, nothing is sent and the store is exactly as before |
| `Poller.WatermarkWrittenIffFound` | main.py:85-87 | a row is stamped with the run's `now` iff the batch succeeded and found uploads for its provider id; otherwise it is unchanged |
| `Poller.RunWritesFound` | main.py:70-87 | a listed id is written iff the batch succeeded and found uploads for it |
| `Poller.WatermarksIgnoreDelivery` | main.py:82-87 | every row ends the same whatever the webhook endpoints answer |
| `Scheduler.StepWith` | main.py:99-121 | an event whose task is not in the right phase (a run of a task that is not pending, a wake-up of a task that is not sleeping) changes nothing; start is a no-op while running, otherwise creates and tracks a pending task under the next number; stop cancels only the tracked task; a run of a pending task leaves `is_running`, `background_task` and the numbering alone, and the task sleeps iff running, else ends; a wake-up creates a pending successor under the next number, which is tracked only in the corrected loop |
| `Scheduler.Replay` | main.py:99-121 | stray runs are among the runs, and the runs are among the events |
| `Scheduler.StartIsIdempotent` | main.py:105-111 | starting twice is starting once |
| `Scheduler.StopIsIdempotent` | main.py:114-121 | after a stop the loop is not running, and stopping again changes nothing |
| `Scheduler.FixedStepKeepsOneChain` | main.py:99-121 | with the successor tracked, every step keeps at most one live task, the tracked one, and none once stopped |
| `Scheduler.FixedLoopNeverStrays` | main.py:99-121 | with the successor tracked, no run of the check ever happens after a stop, for any order of events |
| `Scheduler.CycleAfterStopAsWritten` | main.py:99-121 | as written, start, run, wake, stop leaves the untracked successor alive, and it runs the check after the stop |
| `Scheduler.TwoChainsAsWritten` | main.py:99-121 | as written, start, run, wake, stop, start leaves two pending chains alive |
| `Scheduler.OneChainWhenFixed` | main.py:99-121 | the same events with the successor tracked leave only the new chain |
| `ChannelRoutes.CreateChannel` | apis/channel.py:12-54 | with `corrected` false the lookup is the program's own (`GetChannelInfoAsWritten`), with `corrected` true the corrected one; either way: unknown webhook gives 404; taken handle gives 400; both leave store and tally untouched; a failed lookup gives 400, leaves the store unchanged and keeps the lookup's charge; otherwise 201 with exactly the resolved row inserted under a fresh id |
| `ChannelRoutes.DeleteChannel` | apis/channel.py:65-70 | 404 iff no row has that id; otherwise 204 with only that row removed |
| `ChannelRoutes.CreateKeepsRefIntegrity` | apis/channel.py:17-19 | registration never creates a channel pointing at a missing webhook |
| `ChannelRoutes.CreateKeepsHandlesUnique` | apis/channel.py:22-27 | registration keeps handles unique |
| `ChannelRoutes.DuplicateSpendsNoQuota` | apis/channel.py:22-36 | once the webhook exists, the tally is untouched iff the handle is already taken |
| `ChannelRoutes.DeleteKeepsInvariants` | apis/channel.py:65-70 | deleting a channel keeps references and handle uniqueness |
| `ChannelRoutes.SameChannelUnderTwoHandles` | apis/channel.py:22-49 | with either lookup, two handles resolving to one provider channel register two rows with the same provider id |
| `ChannelRoutes.ChannelIdHandleRejectedAsWritten` | apis/channel.py:29-36 | the route as it runs answers a free `UC`-shaped handle, which the provider resolves with a channel resource, with 400, leaves the store unchanged and charges one unit |
| `ChannelRoutes.ChannelIdHandleRegisteredWhenCorrected` | apis/channel.py:29-49 | over the corrected lookup the same request gives 201 with the row carrying the provider's channel id and title |
| `WebhookRoutes.CreateWebhook` | apis/webhook.py:27-41 | always 201 with exactly the given names and URL under a fresh id, both stamps at creation time; channels untouched |
| `WebhookRoutes.DeleteWebhook` | apis/webhook.py:48-61 | 400 while any channel references it, else 404 when absent, else 204 with only that row removed; rejections leave the store unchanged |
| `WebhookRoutes.ReferencedIffListed` | apis/webhook.py:52-53 | the route's guard fires iff some channel row references the webhook |
| `WebhookRoutes.CreateKeepsRefIntegrity` | apis/webhook.py:27-41 | adding a webhook keeps every channel reference valid |
| `WebhookRoutes.DeleteKeepsRefIntegrity` | apis/webhook.py:51-61 | the route's delete never leaves a channel pointing at a removed webhook |
| `WebhookRoutes.StoreDeleteAloneDangles` | utils/db_manager.py:144-150 | the store's delete, without the route's guard, removes a webhook that a channel still references |

## Left out

- Timing of the loop: the `CHECK_INTERVAL` sleep (1800 s) and the wall-clock duration of a run. The scheduler models only the order of events.
- Poller.CheckNewVideos: every clock read of a run is collapsed into the one parameter `now`: the horizon (main.py:59), each watermark write (utils/db_manager.py:215-216) and the `update_at` trigger's `CURRENT_TIMESTAMP` (utils/db_manager.py:101-106). In the program these are separate readings, taken as the run proceeds; the model's single reading ignores the time that passes between them. `start_time` (main.py:38) is only used for the elapsed-time log.
- Logging, `log_api_call` and the elapsed-time and quota log line (main.py:89-94). None of these changes state.
- `utils/time_utils.py`. Timestamps are integer seconds UTC. `format_utc` is the parameter `fmt`. Time-zone conversion (`to_utc`) is the identity.
- `utils/config.py` and the process wiring (`lifespan`, `apis/routers.py`, `apis/status.py`) and the `front/` web client. They hold no logic of the core.
- The SQLite DDL, indexes and connection handling. Only their effects are modelled: rowids, AUTOINCREMENT, `NOT NULL` fields, and the `update_at` trigger on channel rows. The webhook trigger never fires because no code updates webhooks.
- The list routes (`GET /channels`, `GET /webhooks`). They return `Store.AllChannels` and `Store.AllWebhooks` unchanged.
- The 500 branch of channel registration (apis/channel.py:47-48), re-raised as 500 by `except HTTPException: raise` (apis/channel.py:51-52). In the model the row just inserted is always found, so it cannot occur. The webhook route's `HTTPException(500)` (apis/webhook.py:39) is caught by its own `except Exception` (apis/webhook.py:40-41) and would answer 400 with detail "500: Failed to create webhook"; in the model it cannot occur either.
- Database exceptions, which the routes turn into 400 (apis/channel.py:53-54, apis/webhook.py:40-41), and the exception text appended to `detail`. The model's store never raises, and `ChannelRoutes.LookupFailed` is the fixed prefix of that detail.
- Pydantic's normalisation of the webhook URL (`HttpUrl`). The URL is stored as given. The length bounds of apis/models.py:7-8 and 22 are the routes' preconditions.
- `maxResults=50` of the batched lookup (youtube_api.py:121). How many entries the provider returns is left to the `Api` oracle.
- Malformed provider replies (a missing key, an unparsable timestamp). They raise inside the same `try` as a failed request, so the oracle's `Raised` stands for both.
- Concurrency between HTTP requests and the poller. Each operation is atomic on the single event loop.

## Findings

| source | as written | input that shows it | evidently intended | confidence | as-written member | corrected member |
|---|---|---|---|---|---|---|
| utils/youtube_api.py:94 | `item.get('id', {}).get('channelId', item.get('id'))` calls `.get` on `item['id']`, which is a string for a channel resource returned by `channels().list`, so it raises; every handle of `UC` shape, and every handle found by username, is rejected with "Failed to get channel info" | a handle `UCabc` answered with one channel resource `{id: "UCabc", snippet: {title: "T"}}` | the channel resource's own id `UCabc`, as for a search hit's `id.channelId` | high; not executed | `Provider.GetChannelInfoAsWritten` (`Provider.ChannelIdHandleFailsAsWritten`, `ChannelRoutes.ChannelIdHandleRejectedAsWritten`) | `Provider.GetChannelInfo` (`ChannelRoutes.CreateChannel` with `corrected` true, `ChannelRoutes.ChannelIdHandleRegisteredWhenCorrected`) |
| main.py:99-102, 110, 120 | the successor that the `finally` block creates is never stored in `background_task`, so after the first cycle `stop_background_task` cancels an already finished task; the sleeping or pending successor keeps running, and a later start adds a second chain | events start, run, wake, stop, run: the check runs after the stop; start, run, wake, stop, start: two pending chains | the successor replaces the tracked task, so stop cancels the live one and only one chain exists | high; not executed | `Scheduler.StepWith` with `trackSuccessor` false (`Scheduler.CycleAfterStopAsWritten`, `Scheduler.TwoChainsAsWritten`) | `Scheduler.StepWith` with `trackSuccessor` true (`Scheduler.FixedLoopNeverStrays`, `Scheduler.OneChainWhenFixed`) |
