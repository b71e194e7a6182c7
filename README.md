# Tealium Windows tracker: the buffering and dispatch engine, in Dafny

This project models the core of the Tealium tracking library for Windows
(WinRT/UWP, C#) and proves properties of that model. An application calls the
tagger to track views, clicks and custom events. The tagger turns each call
into a `utag.track(...)` script. It hands the script to the tracking frame,
which queues it in a request queue. A timer later sends the queue to the
hidden tracking page in batches. The page publishes a per-version
configuration, which decides whether tracking is enabled, the batch size and
the queue limits.

Modules, one per source file, plus three shared ones:

| module | file | models |
|---|---|---|
| `Wrappers` | wrappers.dfy | `Option` (a null reference is `None`) |
| `Text` | text.dfy | the .NET string services the core calls: `Char.IsWhiteSpace`, `string.IsNullOrWhiteSpace`, `Boolean.TryParse`, `int.TryParse`, `ToString`, `WebUtility.HtmlEncode` |
| `Variables` | variables.dfy | the variable dictionaries: a .NET `Dictionary` that is only added to, as an insertion-ordered sequence of pairs |
| `Queue` | request_queue.dfy | `RequestQueue`: a FIFO of time-stamped payloads with a size bound and an age limit |
| `Config` | version_config.dfy | `VersionConfig`: `Default`, `Parse`, `ParseAsBoolean`, `ParseAsInt` |
| `Connection` | connection_utility.dfy | `ConnectionUtility`: the cached online flag, the handler registry, change notification |
| `Tracking` | tracking_frame.dfy | `TrackingFrame`: the page status machine, the tracking mode, the event gate, the drain tick, persistence |
| `Settings` | settings.dfy | `TealiumSettings`: the constructor's stored values and defaults |
| `Tagger` | tagger.dfy | `TealiumTagger`: the variable setters, the three-layer merge, the JSON payload, the script, the environment name |
| `VarCollection` | var_collection.dfy | `VariableCollection`: insert-if-absent `Add` and the indexer |

## How the model is built

- **Classes for state that changes.** The objects whose fields the source
  updates in place are classes: `RequestQueue`, `TrackingFrame`,
  `ConnectionUtility`, `TealiumTagger` and `VariableCollection`.
  - Each method's `ensures` ties the new state to a pure transition function
    of the old state. Examples: `State() == Enqueued(old(State()), value, now)`
    and `frame.State() == AfterTrackEvent(old(frame.State()), script, d, now)`.
  - Lemmas prove the promised properties about those transition functions.
- **Time.** The clock is an integer count of 100-nanosecond ticks, the unit of
  `DateTimeOffset`, so one day is 864 000 000 000 ticks. Every operation that
  reads `DateTimeOffset.Now` takes that time as its `now` parameter.
- **Platform queries become values.**
  - A connection profile is an `Option<ConnectionProfile>`.
  - What `ConnectionUtility` reports during one event is a `DeviceState`:
    online, on Wi-Fi, battery saver.
  - A WebView navigation outcome is a boolean.
  - The settings script's result is an `Option<ScriptResult>`: its text, and
    the JSON object that text parses to.
  - Storage loads and saves are `Option<seq<string>>` values.
  - The dispatcher timer is a boolean field plus a tick method.
  - The script a tick sends is the tick's result.
- **JSON is already parsed.** `VersionConfig.Parse` receives the root object
  as a `map<string, Json>`. Its result is `Parsed(config)`, or
  `MissingVersion` where the source throws because the root has no "4"
  entry.

## Model

| member | source | states |
|---|---|---|
| Queue.RequestQueue.constructor | TealiumWinRTLibrary/Utility/RequestQueue.cs:27-38 | a new queue is empty and holds the given limits; the defaults are maxSize 0 and maxAgeInDays -1, so it is unbounded and never expires |
| Queue.RequestQueue.IsEmpty | TealiumWinRTLibrary/Utility/RequestQueue.cs:40-52 | purges expired entries and nothing else; true exactly when no live entry is left |
| Queue.RequestQueue.Size | TealiumWinRTLibrary/Utility/RequestQueue.cs:54-61 | purges expired entries and nothing else; returns the number of live entries |
| Queue.RequestQueue.ResetQueueSize | TealiumWinRTLibrary/Utility/RequestQueue.cs:79-86 | sets both limits, then purges expired entries, then excess entries (AfterReset) |
| Queue.RequestQueue.TryDequeue | TealiumWinRTLibrary/Utility/RequestQueue.cs:88-111 | purges expired entries. On an empty queue it returns false and no value, and the queue stays as purged. Otherwise it returns true with the oldest live payload and removes exactly that entry |
| Queue.RequestQueue.Enqueue | TealiumWinRTLibrary/Utility/RequestQueue.cs:113-122 | appends an entry stamped `now`; only when maxSize > 1 and the bound is exceeded does it purge expired, then excess, entries |
| Queue.RequestQueue.ToList | TealiumWinRTLibrary/Utility/RequestQueue.cs:124-128 | purges expired entries and nothing else; returns the live payloads in FIFO order |
| Queue.RequestQueue.PurgeExpired | TealiumWinRTLibrary/Utility/RequestQueue.cs:130-154 | the loop removes exactly the longest run of expired entries at the head (DropExpired) and keeps both limits |
| Queue.RequestQueue.PurgeExcess | TealiumWinRTLibrary/Utility/RequestQueue.cs:156-170 | the loop, whose guard is re-evaluated against the shrinking count, removes ExcessCount head entries and nothing else |
| Queue.Payloads | TealiumWinRTLibrary/Utility/RequestQueue.cs:127 | the payloads of the entries, one per entry, in queue order |
| Queue.DropExpired | TealiumWinRTLibrary/Utility/RequestQueue.cs:130-154 | the result is a suffix of the entries; nothing is removed for a negative age limit; otherwise the first remaining entry is not expired |
| Queue.ExcessCount | TealiumWinRTLibrary/Utility/RequestQueue.cs:156-170 | no entry is removed when maxSize < 0 or count <= maxSize; otherwise exactly half the excess, rounded up |
| Queue.NeverExpires | TealiumWinRTLibrary/Utility/RequestQueue.cs:130-134 | with a negative age limit, purging changes nothing |
| Queue.DropExpiredRemovesOnlyExpired | TealiumWinRTLibrary/Utility/RequestQueue.cs:136-153 | every entry purging removes is expired: its date plus the age limit lies strictly before `now` |
| Queue.PurgedIdempotent | TealiumWinRTLibrary/Utility/RequestQueue.cs:130-154 | purging twice at the same time is the same as purging once |
| Queue.PurgedLeavesOnlyLive | TealiumWinRTLibrary/Utility/RequestQueue.cs:130-154 | on a time-ordered queue, no entry left after purging is expired |
| Queue.EnqueueAppends | TealiumWinRTLibrary/Utility/RequestQueue.cs:113-122 | when maxSize <= 1 or the queue stays within its bound, Enqueue appends the payload and removes nothing |
| Queue.EnqueuedIsSuffix | TealiumWinRTLibrary/Utility/RequestQueue.cs:113-122 | Enqueue removes entries only at the head of the grown queue |
| Queue.FreshEntrySurvivesPurge | TealiumWinRTLibrary/Utility/RequestQueue.cs:145 | an entry stamped `now` is never expired at `now`, so purging keeps it last |
| Queue.EnqueueKeepsBound | TealiumWinRTLibrary/Utility/RequestQueue.cs:113-122 | with maxSize > 1 and a queue within its bound, Enqueue keeps the queue within its bound. It drops only the oldest entries, and the new payload is last |
| Queue.TrimmedLeavesOverflow | TealiumWinRTLibrary/Utility/RequestQueue.cs:161 | with two or more entries over the bound, PurgeExcess leaves maxSize plus half the excess, rounded down; this is still over the bound |
| Queue.ResetQueueSizeNeedNotReachLimit | TealiumWinRTLibrary/Utility/RequestQueue.cs:79-86 | ResetQueueSize(1, -1) on five entries leaves three; a second call leaves two |
| Queue.ResetOnCompliantQueue | TealiumWinRTLibrary/Utility/RequestQueue.cs:79-86 | when the live entries already fit, ResetQueueSize only purges expired entries, and repeating it changes nothing |
| Queue.EnqueueKeepsTimeOrder | TealiumWinRTLibrary/Utility/RequestQueue.cs:113-122 | Enqueue at a time no earlier than the last entry keeps the queue in time order |
| Queue.EnqueuedWithoutExpiry | TealiumWinRTLibrary/Utility/RequestQueue.cs:113-122 | on a bounded, non-expiring queue within its bound, Enqueue appends the entry and drops at most the oldest one |
| Queue.EnqueueAllKeepsNewest | TealiumWinRTLibrary/Utility/RequestQueue.cs:113-122 | on a bounded, non-expiring queue, any run of enqueues keeps exactly the maxSize most recent payloads, in order |
| Queue.EnqueueAllUnboundedAppends | TealiumWinRTLibrary/Utility/RequestQueue.cs:113-122 | when maxSize <= 1, a run of enqueues appends every payload in order, whatever the age limit |
| Config.ToInt32 | TealiumWinRTLibrary/VersionConfig.cs:141 | the (int) cast is the identity on 32-bit values and always lands in the 32-bit range |
| Config.ParseAsInt | TealiumWinRTLibrary/VersionConfig.cs:137-154 | the result is always a 32-bit value |
| Config.Parse | TealiumWinRTLibrary/VersionConfig.cs:42-107 | a root without "4" makes the JsonObject indexer throw (MissingVersion); a value under "4" that is not an object gives Default. Otherwise, for each of the nine keys, a present key converts into its field and an absent key leaves the field at its zero value, not its Default value |
| Config.ParseAsBooleanReadsBack | TealiumWinRTLibrary/VersionConfig.cs:118-135 | native booleans and the strings "True"/"False"/"true"/"false" read back as the boolean they denote |
| Config.ParseAsBooleanTrueOnlyFor | TealiumWinRTLibrary/VersionConfig.cs:118-135 | ParseAsBoolean is true exactly for JSON true and for strings that Boolean.TryParse reads as true |
| Config.ParseAsIntReadsBack | TealiumWinRTLibrary/VersionConfig.cs:137-154 | every 32-bit number reads back unchanged, whether native or written as a string |
| Config.ParseReads | TealiumWinRTLibrary/VersionConfig.cs:80-103 | a settings object whose nine entries convert to the fields of `c` parses to `c`, whatever else the root holds |
| Config.ParsePublished | TealiumWinRTLibrary/VersionConfig.cs:42-107 | every 32-bit configuration written with native JSON values parses back to itself |
| Config.ParsePublishedAsStrings | TealiumWinRTLibrary/VersionConfig.cs:42-107 | every 32-bit configuration written with string values parses back to itself |
| Config.EmptySettingsObjectIsBlank | TealiumWinRTLibrary/VersionConfig.cs:58 | an empty object under "4" gives the zero-valued configuration: disabled, batch size 0, different from Default |
| Config.NonObjectSettingsIgnored | TealiumWinRTLibrary/VersionConfig.cs:49-106 | a value under "4" that is not an object gives Default |
| Config.FieldsAreIndependent | TealiumWinRTLibrary/VersionConfig.cs:80-103 | each field is read from its own key alone; removing "ivar_tracking" changes only that field, which then reads false |
| Config.PartialSettingsExample | TealiumWinRTLibrary/VersionConfig.cs:58-103 | {"event_batch_size": "3", "_is_enabled": "true"} gives batch size 3 and tracking enabled. Every other boolean is false, and both queue limits are 0 |
| Text.IntTryParse | TealiumWinRTLibrary/VersionConfig.cs:146 | a successful int.TryParse yields a 32-bit value |
| Text.IntTryParseReadsBack | TealiumWinRTLibrary/VersionConfig.cs:146 | int.TryParse reads back every 32-bit value that Int32.ToString writes |
| Text.BoolTryParseReadsBack | TealiumWinRTLibrary/VersionConfig.cs:127 | Boolean.TryParse reads back Boolean.ToString's output and the lower-case JSON spellings |
| Text.BoolTryParseIgnoresPadding | TealiumWinRTLibrary/VersionConfig.cs:127 | white space and NUL padding at either end does not change what Boolean.TryParse reads |
| Text.HtmlEncode | TealiumWinRTLibrary/TealiumTagger.cs:485 | the encoding contains no quote, apostrophe or angle bracket (only the `&` of an escape), and is never shorter than its input |
| Text.HtmlEncodeChar | TealiumWinRTLibrary/TealiumTagger.cs:485 | markup characters are escaped; ordinary characters below U+00A0 are kept as they are |
| Connection.IsOnWiFi | TealiumWinRTLibrary/Utility/ConnectionUtility.cs:74-90 | without a profile the read fails (None); with one it is true exactly for an unrestricted-cost profile |
| Connection.IsBatterySaver | TealiumWinRTLibrary/Utility/ConnectionUtility.cs:45-57 | true exactly on a phone build with power saving on; always false on other builds |
| Connection.ConnectionUtility.constructor | TealiumWinRTLibrary/Utility/ConnectionUtility.cs:11-13 | nothing is cached and no handler is subscribed |
| Connection.ConnectionUtility.IsOnline | TealiumWinRTLibrary/Utility/ConnectionUtility.cs:26-35 | returns a cached value and keeps it. Otherwise it reads the profile, and caches the result only when there is a profile |
| Connection.ConnectionUtility.DetermineIsOnline | TealiumWinRTLibrary/Utility/ConnectionUtility.cs:59-72 | online exactly with internet access through a profile; without a profile it returns false and leaves the cache alone |
| Connection.ConnectionUtility.SubscribeConnectionEvent | TealiumWinRTLibrary/Utility/ConnectionUtility.cs:104-108 | appends the handler unless it is already registered |
| Connection.ConnectionUtility.UnsubscribeConnectionEvent | TealiumWinRTLibrary/Utility/ConnectionUtility.cs:98-102 | removes the handler's first occurrence; a no-op for an unregistered handler |
| Connection.ConnectionUtility.NetworkStatusChanged | TealiumWinRTLibrary/Utility/ConnectionUtility.cs:113-143 | caches whether a profile with internet access exists. The loop makes exactly the calls `Notifications` describes, and the handler list is unchanged |
| Connection.Notifications | TealiumWinRTLibrary/Utility/ConnectionUtility.cs:133-142 | calls are made exactly when the state changed (an unset cache counts as changed) and a handler is registered. Then every handler is called once, in list order, with the new state |
| Connection.SubscribeIdempotent | TealiumWinRTLibrary/Utility/ConnectionUtility.cs:104-108 | subscribing twice is subscribing once, and the handler is then registered |
| Connection.SubscribeKeepsNoDuplicates | TealiumWinRTLibrary/Utility/ConnectionUtility.cs:104-108 | subscribing keeps the list free of duplicates |
| Connection.UnsubscribeRemoves | TealiumWinRTLibrary/Utility/ConnectionUtility.cs:98-102 | unsubscribing removes the handler entirely, keeps every other handler and keeps the list free of duplicates |
| Connection.SubscribeThenUnsubscribe | TealiumWinRTLibrary/Utility/ConnectionUtility.cs:98-108 | subscribing a new handler and then unsubscribing it restores the list |
| Connection.ApplyAllKeepsNoDuplicates | TealiumWinRTLibrary/Utility/ConnectionUtility.cs:92-108 | any sequence of subscribes and unsubscribes keeps the list free of duplicates |
| Connection.RepeatedStatusNotifiesOnce | TealiumWinRTLibrary/Utility/ConnectionUtility.cs:135 | an event with an unchanged outcome notifies no one |
| Connection.FirstEventAlwaysNotifies | TealiumWinRTLibrary/Utility/ConnectionUtility.cs:135 | the first event, with no cached state, notifies every registered handler |
| Tracking.GetTrackingMode | TealiumWinRTLibrary/Utility/TrackingFrame.cs:163-177 | Disabled exactly for a disabled config. Enabled exactly when enabled, online, on Wi-Fi if the config demands it, and not conserving power. A null config respects the battery saver |
| Tracking.TrackingFrame.constructor | TealiumWinRTLibrary/Utility/TrackingFrame.cs:43-62 | status Unknown, no config, the saved payloads queued; the page opens (Loading) only when online |
| Tracking.TrackingFrame.TrackEvent | TealiumWinRTLibrary/Utility/TrackingFrame.cs:64-70 | drops the script when a config disables tracking; otherwise queues it and processes the queue |
| Tracking.TrackingFrame.QueueAndProcess | TealiumWinRTLibrary/Utility/TrackingFrame.cs:138-143 | enqueues the script, then processes the queue |
| Tracking.TrackingFrame.ProcessRequestQueue | TealiumWinRTLibrary/Utility/TrackingFrame.cs:145-161 | the new state is `Processed`: see ProcessStartsTimerIff and FailedPageReopens |
| Tracking.TrackingFrame.OpenTrackingPage | TealiumWinRTLibrary/Utility/TrackingFrame.cs:106-119 | the status becomes Loading and nothing else changes |
| Tracking.TrackingFrame.LoadVersionConfig | TealiumWinRTLibrary/Utility/TrackingFrame.cs:121-134 | adopts the parsed config, or Default for a null or blank result, then resets the queue to the offline dispatch limit and the dispatch expiration. When Parse throws it reports so and nothing has changed |
| Tracking.TrackingFrame.FrameNavigationSuccess | TealiumWinRTLibrary/Utility/TrackingFrame.cs:185-197 | loads the config, then becomes Loaded and processes the queue, or becomes Disabled; when the load throws, the frame is left as it was |
| Tracking.TrackingFrame.NavigationCompleted | TealiumWinRTLibrary/Utility/TrackingFrame.cs:200-211 | a failed navigation sets Failure; a successful one is FrameNavigationSuccess |
| Tracking.TrackingFrame.ConnectionStatusChanged | TealiumWinRTLibrary/Utility/TrackingFrame.cs:300-309 | the new state is `AfterConnectionChange`: see ConnectionChangeOnlyPurges and FailedPageReopens |
| Tracking.TrackingFrame.QueueTimerTick | TealiumWinRTLibrary/Utility/TrackingFrame.cs:250-280 | the new state and the sent script are `AfterTick`: see TickWithoutExpiry, TickNeverRequeues and NonPositiveBatchSizeStalls |
| Tracking.TrackingFrame.DequeueBatch | TealiumWinRTLibrary/Utility/TrackingFrame.cs:255-261 | the loop's batchSize TryDequeue calls leave the queue as `Drain` does, and join the payloads it hands out in order |
| Tracking.TrackingFrame.LoadPersistedQueue | TealiumWinRTLibrary/Utility/TrackingFrame.cs:93-104 | a null or empty list changes nothing; otherwise each saved payload is enqueued in order, stamped `now` |
| Tracking.TrackingFrame.Suspending | TealiumWinRTLibrary/Utility/TrackingFrame.cs:239-247 | the saved list is the live payloads in FIFO order; the queue is only purged |
| Tracking.TrackingFrame.Resuming | TealiumWinRTLibrary/Utility/TrackingFrame.cs:232-237 | the saved payloads are enqueued again into the same queue |
| Tracking.NoConfigRespectsBatterySaver | TealiumWinRTLibrary/Utility/TrackingFrame.cs:171 | without a config an active battery saver defers sending |
| Tracking.WifiOnlyDefersOffWifi | TealiumWinRTLibrary/Utility/TrackingFrame.cs:169-176 | an enabled Wi-Fi-only config defers sending off Wi-Fi |
| Tracking.BatterySaverIgnoredWhenNotHonoured | TealiumWinRTLibrary/Utility/TrackingFrame.cs:169-174 | a config that does not honour the battery saver sends whenever it is online (and on Wi-Fi if it asks for that) |
| Tracking.ProcessStartsTimerIff | TealiumWinRTLibrary/Utility/TrackingFrame.cs:145-161 | a stopped timer starts exactly when the page is Loaded, the mode is Enabled and live entries are queued. A running timer is never stopped, and the queue changes only by purging |
| Tracking.FailedPageReopens | TealiumWinRTLibrary/Utility/TrackingFrame.cs:153-154 | while online, processing, a connectivity change or an accepted event moves a failed page to Loading |
| Tracking.EventsQueuedBeforeLoad | TealiumWinRTLibrary/Utility/TrackingFrame.cs:64-70 | before the first load, an event is queued and nothing else changes |
| Tracking.DisabledFrameIsInert | TealiumWinRTLibrary/Utility/TrackingFrame.cs:36-39 | a Disabled frame ignores events, processing and connectivity changes |
| Tracking.ConnectionChangeOnlyPurges | TealiumWinRTLibrary/Utility/TrackingFrame.cs:300-309 | a connectivity change never alters the config or stops the timer, and removes from the queue only expired entries at its head |
| Tracking.MissingVersionStallsFrame | TealiumWinRTLibrary/Utility/TrackingFrame.cs:121-134 | settings without "4" make the load throw, so a loading page stays Loading: connectivity changes and processing leave it alone, and events are only queued |
| Tracking.BlankSettingsGiveDefault | TealiumWinRTLibrary/Utility/TrackingFrame.cs:121-134 | a null or blank settings result gives a Loaded page with Default config and an unbounded, non-expiring queue that keeps every entry |
| Tracking.EmptySettingsDisableFrame | TealiumWinRTLibrary/Utility/TrackingFrame.cs:185-197 | an empty version object disables the page, and every later event is dropped |
| Tracking.EventsKeepValid | TealiumWinRTLibrary/Utility/TrackingFrame.cs:145-161 | processing, tracking and connectivity changes keep the frame invariant: a running timer or a Loaded/Disabled page has a config that agrees with the status |
| Tracking.NavigationKeepsValid | TealiumWinRTLibrary/Utility/TrackingFrame.cs:185-211 | navigation keeps the frame invariant |
| Tracking.TickAndRestoreKeepValid | TealiumWinRTLibrary/Utility/TrackingFrame.cs:250-280 | ticks and restoring keep the frame invariant, and a new frame satisfies it |
| Tracking.DrainIsLeftOf | TealiumWinRTLibrary/Utility/TrackingFrame.cs:256-261 | the dequeue loop removes entries only at the head and keeps the queue's limits |
| Tracking.TickNeverRequeues | TealiumWinRTLibrary/Utility/TrackingFrame.cs:250-280 | a tick never puts anything back: the queue afterwards is a suffix of the queue before |
| Tracking.DrainInFifoOrder | TealiumWinRTLibrary/Utility/TrackingFrame.cs:256-261 | without expiry, k dequeues hand out the first min(k, count) payloads (none for k <= 0) in FIFO order and leave the rest |
| Tracking.TickWithoutExpiry | TealiumWinRTLibrary/Utility/TrackingFrame.cs:250-280 | without expiry, a tick sends the first batch, joined in order, unless blank. The timer stops when the queue was empty or shorter than a batch, or when offline |
| Tracking.FiveEntriesDrainInBatchesOfTwo | TealiumWinRTLibrary/Utility/TrackingFrame.cs:250-280 | five entries with batch size 2 are sent as 2, 2 and 1; the timer stops at the short batch |
| Tracking.NonPositiveBatchSizeStalls | TealiumWinRTLibrary/Utility/TrackingFrame.cs:256 | with batch size <= 0 a tick sends and dequeues nothing; while online with live entries the timer keeps running |
| Tracking.InitialRestoresSaved | TealiumWinRTLibrary/Utility/TrackingFrame.cs:43-62 | a new frame's queue holds exactly the saved payloads, in order; status Unknown, or Loading when online |
| Tracking.ResumeInPlaceDuplicates | TealiumWinRTLibrary/Utility/TrackingFrame.cs:232-247 | suspending and resuming the same unbounded frame leaves every live payload queued twice |
| Variables.PutLookup | TealiumWinRTLibrary/TealiumTagger.cs:133 | after `d[k] = v`, k reads v and every other key reads as before |
| Variables.PutPlacement | TealiumWinRTLibrary/TealiumTagger.cs:133 | a new key is appended at the end; assigning an existing key keeps every key in its place |
| Variables.PutAllLookup | TealiumWinRTLibrary/TealiumTagger.cs:117-121 | after copying a dictionary in, its keys read as in it and every other key as before |
| Variables.AsTextsLookup | TealiumWinRTLibrary/TealiumTagger.cs:452-458 | converting values to strings keeps the keys distinct; null reads as "" and any other value as its text |
| Variables.MergePrecedence | TealiumWinRTLibrary/TealiumTagger.cs:204-231 | the merged value of a key is the call's, else the persisted one, else the base one, converted to a string; a key none holds is absent |
| Variables.PutKeepsDistinct | TealiumWinRTLibrary/TealiumTagger.cs:133 | assignment keeps keys distinct |
| Variables.PutAllKeepsDistinct | TealiumWinRTLibrary/TealiumTagger.cs:117-121 | copying keeps keys distinct |
| Settings.NewSettings | TealiumWinRTLibrary/TealiumSettings.cs:78-98 | the four arguments are stored as given. Offline mode and page-view tracking are on and SSL is off. The click event is "link", the id parameters are "link_id" and "screen_title", and the view event name is null |
| Settings.DefaultIdParamsDiffer | TealiumWinRTLibrary/TealiumSettings.cs:96-97 | by default the click and view id parameters are different keys |
| Tagger.EnvironmentString | TealiumWinRTLibrary/TealiumTagger.cs:426-445 | the result is "dev", "qa" or "prod". It is "qa" exactly for QA and "prod" exactly for Prod; Dev and every unnamed value give "dev" |
| Tagger.EnvironmentRoundTrip | TealiumWinRTLibrary/TealiumTagger.cs:426-445 | the name reads back as its environment, and an unnamed environment reads back as Dev |
| Tagger.GetJson | TealiumWinRTLibrary/TealiumTagger.cs:473-489 | the loop builds JsonText: "{ }" for an empty dictionary, otherwise the comma-joined, HTML-encoded, quoted entries in order between "{ " and " }" |
| Tagger.CopyEntries | TealiumWinRTLibrary/TealiumTagger.cs:116-121 | the copy loop assigns every entry in order (PutAll) |
| Tagger.CopyAsTexts | TealiumWinRTLibrary/TealiumTagger.cs:447-463 | the copy loop assigns every entry as a string, and a null value as "" |
| Tagger.TealiumTagger.constructor | TealiumWinRTLibrary/TealiumTagger.cs:88-92 | stores the settings; no persisted variables, and a new frame in its initial state |
| Tagger.TealiumTagger.SetVariables | TealiumWinRTLibrary/TealiumTagger.cs:109-122 | null clears the persisted variables; anything else replaces them with a copy |
| Tagger.TealiumTagger.SetVariable | TealiumWinRTLibrary/TealiumTagger.cs:129-134 | creates the dictionary if needed and assigns only that key |
| Tagger.TealiumTagger.SetGlobalVariables | TealiumWinRTLibrary/TealiumTagger.cs:140-152 | null changes nothing; anything else replaces the base variables with a copy |
| Tagger.TealiumTagger.SetGlobalVariable | TealiumWinRTLibrary/TealiumTagger.cs:159-164 | creates the base dictionary if needed and assigns only that key |
| Tagger.TealiumTagger.CopyVarsFromBase | TealiumWinRTLibrary/TealiumTagger.cs:447-463 | the base variables as strings, or nothing when null |
| Tagger.TealiumTagger.TrackCustomEvent | TealiumWinRTLibrary/TealiumTagger.cs:204-236 | the frame tracks the script of the event name and the JSON of the merge base < persisted < call |
| Tagger.TealiumTagger.TrackItemClicked | TealiumWinRTLibrary/TealiumTagger.cs:172-179 | the item name is set under the click id parameter and sent as the click event |
| Tagger.TealiumTagger.TrackScreenViewed | TealiumWinRTLibrary/TealiumTagger.cs:187-196 | the view name is set under the view id parameter, also persisted, and sent as the view event |
| Tagger.TealiumTagger.SendEvent | TealiumWinRTLibrary/TealiumTagger.cs:491-497 | the frame tracks the formatted utag.track script |
| Tagger.ClickCarriesItemName | TealiumWinRTLibrary/TealiumTagger.cs:172-179 | a click always sends its item name under the click id parameter, whatever the base and persisted variables hold |
| Tagger.ViewNamePersists | TealiumWinRTLibrary/TealiumTagger.cs:187-196 | after a screen view, later events that do not set the view id parameter still send the view name |
| Tagger.MergedKeysDistinct | TealiumWinRTLibrary/TealiumTagger.cs:204-231 | the merged dictionary holds each key once |
| Tagger.JsonQuotes | TealiumWinRTLibrary/TealiumTagger.cs:473-489 | the payload holds exactly four double quotes per variable, so no key or value can end its string early |
| Tagger.ScriptDeterminesParts | TealiumWinRTLibrary/Constants.cs:17 | the event name (without an apostrophe) and the payload can be read back from the script |
| Tagger.DefaultViewEventIsEmpty | TealiumWinRTLibrary/TealiumSettings.cs:94 | with default settings a screen view is sent with an empty event name |
| VarCollection.VariableCollection.constructor | TealiumUWPLibary/Utility/VariableCollection.cs:20-25 | the collection starts empty |
| VarCollection.VariableCollection.Add | TealiumUWPLibary/Utility/VariableCollection.cs:27-33 | stores the value only when the key is absent |
| VarCollection.VariableCollection.Get | TealiumUWPLibary/Utility/VariableCollection.cs:37-44 | the stored value, or null for a missing key |
| VarCollection.VariableCollection.Set | TealiumUWPLibary/Utility/VariableCollection.cs:47-50 | overwrites the key unconditionally |
| VarCollection.FirstAddWins | TealiumUWPLibary/Utility/VariableCollection.cs:27-33 | of two Adds of one key the first wins; the second leaves the dictionary unchanged |
| VarCollection.AddThenRead | TealiumUWPLibary/Utility/VariableCollection.cs:27-44 | after Add on an absent key, the key reads the added value and every other key reads as before |
| VarCollection.SetThenRead | TealiumUWPLibary/Utility/VariableCollection.cs:37-50 | after a set, the key reads the new value and every other key reads as before |
| VarCollection.StoredNullReadsAsMissing | TealiumUWPLibary/Utility/VariableCollection.cs:37-44 | a stored null and a missing key read the same |

## Left out

- Concurrency: the `ConcurrentQueue` and `ConcurrentDictionary` thread-safety and the `lock` around notification. The model is sequential.
- The WebView itself: navigation, `InvokeScriptAsync`, the Windows Phone `LoadCompleted`/`NavigationFailed`/`Unloaded` handlers and URL building. Navigation outcomes and script results are parameters, and a sent batch is a method result.
- The dispatcher timer's 200 ms interval, `ThreadHelper` dispatching to the UI thread, and `async`/`await`. Each handler runs to completion at once.
- Storage I/O (`StorageHelper`). Loaded and saved queues are parameters and results.
- JSON text parsing, including the exception `JsonObject.Parse` throws on malformed text, and the Newtonsoft `WINDOWS_PHONE_LEGACY` branch of `Parse`, whose indexer returns null for a missing "4" and so gives Default. `Parse` receives the parsed object and follows the WinRT indexer, which throws.
- Config.Parse: where it throws, the model leaves the frame exactly as it was. What the exception escaping the `async void` navigation handler then does to the application is not modelled.
- Config.ToInt32: JSON numbers are whole numbers here. The double-to-int cast of a fractional number, and its truncation, are not modelled. Out-of-range numbers become Int32.MinValue, as the cast does on x86/x64.
- Text.BoolTryParse: case-insensitive comparison covers the ASCII letters only, which are all that "True"/"False" need.
- Tagger.GetJson: the source also skips entries whose key or value is null. The model assumes no value's `ToString()` returns null; the tagger stores `Value.ToString()` unchecked (TealiumTagger.cs:212, :225, :455), so such a value would reach GetJson and be skipped there.
- Variables: keys of the `IDictionary` arguments are strings here. Two distinct keys whose `ToString()` coincide would collapse into one, and this is not modelled.
- Tagger.TealiumTagger.TrackItemClicked: the caller's dictionary is written into in place (aliasing). The model writes into a copy, so the caller cannot observe the added id parameter.
- Tagger.TealiumTagger.TrackScreenViewed: the same aliasing as TrackItemClicked.
- Connection.IsOnWiFi: the exception thrown when there is no profile is `None`.
- `TrackingFrame` reads one `DeviceState` per event, so a change of connectivity in the middle of a handler is not modelled.
- Tagger.TealiumTagger.constructor: the frame is created at construction, as `RegisterWithRootFrame` does first. The rest of that registration is not modelled: the page-view track `SubscribeEvents` makes at once when the root frame already has content (TealiumTagger.cs:297-301), and the exception `ErrorRootIsNotFrame` throws when the window content is not a Frame (:265-266).
- The Windows Phone legacy branches of `IsOnline` and `IsOnWiFi`, which use `GetIsNetworkAvailable` and interface types.
- UI and reflection: XAML behaviours, attributes, `TypeHelper`, `RegisterWithRootFrame`, page-navigation tracking and automatic property collection.
- Diagnostics: `TealiumStatusLog` (including the error logged for a blank account or profile, which is the predicate `Settings.MissingAccountOrProfile`) and `ReferenceTracker`.
- The timestamp and URL parts of the tagger, and the settings properties' public setters, which are plain assignments.
- Queue.IsExpired: `QueuedDate.AddDays(maxAgeInDays)` throws once the date passes year 9999, that is for a `dispatch_expiration` above about 2.9 million days, which ParseAsInt accepts. The source's IsEmpty, Size, TryDequeue, ToList and ResetQueueSize then throw on a non-empty queue; the model's comparison is plain arithmetic and never throws.
- Queue.RequestQueue.Enqueue: the source reads `DateTimeOffset.Now` once for the stamp and again for each comparison in PurgeExpired; the model uses one `now` per operation. With maxAgeInDays 0 (an absent `dispatch_expiration`), a clock that moves between the two reads makes the source's over-bound Enqueue drop the entry it has just stamped.
- Queue.FreshEntrySurvivesPurge: holds under the one-`now` reading only, for the reason given for Enqueue.
- Queue.EnqueueKeepsBound: the new payload is last under the one-`now` reading only, for the reason given for Enqueue.
- VersionConfig's immutability is given by its being a datatype; no lemma states it.
