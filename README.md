# Routing core and false-positive registry, modelled in Dafny

This project models four pieces of the OpenClaw gateway and of its ops tooling.

1. **The false-positive registry.** This is `FalsePositiveManager` in `agents/opsec/scripts/false-positive-manager.cjs`.
   - It holds an in-memory table of known false positives, keyed by id, with metadata and configuration counters.
   - Beside the table it keeps a sliding window of recent error timestamps per message.
   - The class becomes the Dafny class `FalsePositiveRegistry.FalsePositiveManager`. The JavaScript object that holds the table is two fields: its key order (`order`) and its contents (`entries`).
   - `add`, `increment`, `checkMatch`, `_trackRecentError`, `shouldAutoClassify` and `cleanup` are methods that update those fields in place. The loops of `checkMatch` and `cleanup` are kept as loops.
   - `getStats`, the default record of `loadData`, the id check and the history trimming are pure functions in `FalsePositiveData`.
2. **Channel and plugin auto-enable** (`applyPluginAutoEnable`). This is a pure function from `{config, env}` to `{config', changes}`:
   - configured built-in channels are switched on in `channels`;
   - other channels and auth-profile plugins are switched on in `plugins.entries`;
   - an explicit `enabled: false`, the deny list and the global off switch are honoured;
   - `bluebubbles` is preferred over `imessage` while it is active;
   - the allow list is extended when a built-in channel is switched on.
3. **Delivery-target resolution** (`resolveDeliveryTarget`). This is a pure function:
   - the account comes from the session first, then from the first binding for (agent, channel), and is otherwise absent;
   - a composite `"<chat>:topic:<n>"` address gives the thread id and is passed through unchanged.
4. **Session affinity on inbound messages** (`recordInboundSession`). This is a read-modify-write of one record in the session store, the class `SessionRecorder.SessionStore`.
   - A message from the internal `webchat` surface records metadata only.
   - A message from an external channel replaces the stored route and delivery context.

The implementations of parts 2–4 (`plugin-auto-enable.ts`, `delivery-target.ts`, `channels/session.ts`) are not part of this model. What the source pins down for them is their test files. So each part has three layers:

- The Dafny body (`PluginAutoEnable.Apply`, `DeliveryTarget.Resolve`, `SessionRecorder.Inbound`) is a reference definition of the documented rules.
- General lemmas state each rule for all inputs.
- One lemma per test case proves the test's own assertions on the test's own inputs.

The tables hidden in those implementations are named constants. They hold only the values the tests use:

- `BuiltInChannelOrder`: telegram, discord, irc, slack, imessage;
- `PreferOver`: bluebubbles over imessage;
- `EnvDetection`: `IRC_HOST` and `IRC_NICK` for irc;
- `AuthPluginProviders`: google-antigravity;
- `InternalSurfaces`: webchat.

Files:

- `wrappers.dfy`: `Option` and `Result`.
- `fp_data.dfy`, `fp_manager.dfy`: the registry.
- `plugin_auto_enable.dfy`: auto-enable.
- `session_record.dfy`: the session store's record, shared by the reader and the writer below.
- `delivery_target.dfy`: the composite-address parser (`TopicAddress`) and the resolver.
- `session.dfy`: the inbound recorder.

Collaborators and effects become parameters:

- clock readings become an integer `now` in milliseconds;
- the regular-expression engine becomes `compiles(pattern)` and `matches(pattern, message)`;
- the result of persisting the store becomes `saved`;
- the channel chosen by channel selection becomes `selected`;
- the key computed for the agent's main session becomes `mainKey`.

## Model

| member | source | states |
|---|---|---|
| FalsePositiveData.LoadData | agents/opsec/scripts/false-positive-manager.cjs:17-41 | With no data file: an empty table, `total_entries` 0, version "1.1", and config 3 / 100 / 15 / 15. With a file: its table and metadata as stored and its other settings kept. A missing or zero `recent_errors_window_minutes` becomes exactly 15, and a non-zero one is kept, so the window is never 0 |
| FalsePositiveRegistry.FalsePositiveManager.constructor | agents/opsec/scripts/false-positive-manager.cjs:10-15 | The manager holds exactly the loaded data and an empty recent-error map |
| FalsePositiveData.TableSize | agents/opsec/scripts/false-positive-manager.cjs:153 | For a well-formed table, `Object.keys(...).length` (the key-order length) equals the number of entries |
| FalsePositiveData.ValuesOf | agents/opsec/scripts/false-positive-manager.cjs:241 | `Object.values`: one entry per key, in key order |
| FalsePositiveData.NewEntry | agents/opsec/scripts/false-positive-manager.cjs:129-150 | The new entry has the given id, name, description and pattern, `count` 1, and first and last seen now. A given severity is kept, otherwise it is "medium". `auto_resolve`, `affected_processes`, `user_triggers`, `mitigation` and `notes` are the options given. There is exactly one history record: stamped now, with the given context and `resolved`, `reported_by` defaulting to "manual" and `resolution_method` defaulting to "manual" |
| FalsePositiveData.ValidId | agents/opsec/scripts/false-positive-manager.cjs:76-80 | An accepted id is non-empty and contains no lower-case letter |
| FalsePositiveData.PrototypeNamesRejected | agents/opsec/scripts/false-positive-manager.cjs:76-80 | `constructor`, `toString`, `__proto__`, `hasOwnProperty` and `valueOf`, the names a plain object inherits, are all rejected, so `add` never stores under them |
| FalsePositiveRegistry.FalsePositiveManager.Add | agents/opsec/scripts/false-positive-manager.cjs:121-160 | Each error holds exactly when its guard does, checked in source order: invalid id (`_validateId`); empty pattern; pattern the engine rejects; id already present. On any error the table, order and metadata are unchanged. On success the entry is stored under its id and appended to the key order, the table stays well formed, and `total_entries` equals the number of keys |
| FalsePositiveData.TrimHistory | agents/opsec/scripts/false-positive-manager.cjs:182-185 | With a limit of at least 1, keeps the newest min(length, limit) records in order. A history within the limit is untouched. A limit of 0 keeps everything, as `slice(-0)` does |
| FalsePositiveData.SliceFromEnd | agents/opsec/scripts/false-positive-manager.cjs:184 | JavaScript's `slice(-m)`: for m > 0 the last min(length, m) records; for m = 0 everything; for m < 0 everything but the first min(length, −m) |
| FalsePositiveData.Incremented | agents/opsec/scripts/false-positive-manager.cjs:170-185 | `count` rises by exactly 1 and `last_seen` becomes the record's time. With a limit ≥ 1 the history is the newest min(n+1, limit) records of old history + new record, so it ends with the new record. No other field changes |
| FalsePositiveRegistry.FalsePositiveManager.Increment | agents/opsec/scripts/false-positive-manager.cjs:163-189 | An unknown id returns none and changes nothing. A known id's entry is replaced by `Incremented` with an `auto_detection` record, and the returned entry is the stored one. Key order, config and `total_entries` are unchanged |
| FalsePositiveRegistry.FalsePositiveManager.CheckMatch | agents/opsec/scripts/false-positive-manager.cjs:192-216 | An empty message gives none. A result is an entry of the table whose pattern compiles and matches and whose process filter passes, and no earlier key in table order has one. None means no entry has one |
| FalsePositiveData.KeepRecent | agents/opsec/scripts/false-positive-manager.cjs:109 | The filter keeps every occurrence of each timestamp `t` with `now - t < window` and none of the others, so equal timestamps count once each. It never lengthens the list |
| FalsePositiveData.KeepRecentAppend | agents/opsec/scripts/false-positive-manager.cjs:109 | Filtering distributes over concatenation, so the survivors keep their order |
| FalsePositiveData.NewestSurvives | agents/opsec/scripts/false-positive-manager.cjs:105-111 | With a positive window, the filtered list after pushing `now` is the filtered old list followed by `now`, so it is never empty |
| FalsePositiveRegistry.FalsePositiveManager.TrackRecentError | agents/opsec/scripts/false-positive-manager.cjs:96-112 | Only the message's window changes. It becomes the filtered old timestamps plus `now`, and the count returned is its length: at least 1 and ending with `now` when the window is positive |
| FalsePositiveRegistry.FalsePositiveManager.ShouldAutoClassify | agents/opsec/scripts/false-positive-manager.cjs:115-118 | Records the error as `_trackRecentError` does and answers true iff the count in the window reaches `auto_classify_threshold` |
| FalsePositiveData.FreshKeysMembers | agents/opsec/scripts/false-positive-manager.cjs:339-345 | The keys surviving `cleanup` are exactly the keys whose entry is not stale, and they stay distinct |
| FalsePositiveData.Pruned | agents/opsec/scripts/false-positive-manager.cjs:339-345 | The table after `cleanup` holds exactly the entries last seen at or after the cutoff, unchanged |
| FalsePositiveRegistry.StaleAmongMembers | agents/opsec/scripts/false-positive-manager.cjs:340-341 | The keys the sweep deletes are exactly the visited keys whose `last_seen` is before the cutoff |
| FalsePositiveRegistry.FalsePositiveManager.Sweep | agents/opsec/scripts/false-positive-manager.cjs:339-345 | The loop over the `Object.entries` snapshot deletes exactly the stale keys in place, keeps the others in order and counts the deletions |
| FalsePositiveRegistry.SweptIsPruned | agents/opsec/scripts/false-positive-manager.cjs:339-345 | Deleting the stale keys of a complete key order leaves exactly the pruned table |
| FalsePositiveRegistry.NothingStale | agents/opsec/scripts/false-positive-manager.cjs:340 | If no key is stale, the pruned table is the table itself |
| FalsePositiveRegistry.KeepAllFresh | agents/opsec/scripts/false-positive-manager.cjs:339-345 | If the sweep keeps as many keys as it visited, it kept every key and none was stale |
| FalsePositiveRegistry.SweepOutcome | agents/opsec/scripts/false-positive-manager.cjs:339-350 | After visiting every key the table is the pruned one and is still well formed. When nothing was removed, the order and table are the old ones |
| FalsePositiveRegistry.FalsePositiveManager.Cleanup | agents/opsec/scripts/false-positive-manager.cjs:335-353 | Removes exactly the entries last seen before now − days·24h and leaves the others untouched and in order. Returns how many were removed. When that is non-zero, `total_entries` becomes the remaining key count; when it is zero, nothing changes |
| FalsePositiveData.CountWhere | agents/opsec/scripts/false-positive-manager.cjs:249-255 | `filter(p).length` is at most the number of entries, and equals it iff every entry satisfies `p` |
| FalsePositiveData.CountWhereIndices | agents/opsec/scripts/false-positive-manager.cjs:249-255 | `filter(p).length` equals the number of positions whose entries satisfy `p` |
| FalsePositiveData.PositionCounts | agents/opsec/scripts/false-positive-manager.cjs:249-250 | `auto_resolvable` counts the positions with `auto_resolve` set, and `recent_24h` the positions last seen less than 24 hours before now |
| FalsePositiveData.SeverityPositions | agents/opsec/scripts/false-positive-manager.cjs:251-256 | Each `by_severity` bucket counts the positions whose severity is exactly that level |
| FalsePositiveData.KeyCount | agents/opsec/scripts/false-positive-manager.cjs:241-256 | On a well-formed table, counting the values of `Object.values` that satisfy `p` is counting the keys whose entries do |
| FalsePositiveData.KeyCounts | agents/opsec/scripts/false-positive-manager.cjs:249-250 | `auto_resolvable` and `recent_24h` of a table are the numbers of keys whose entries are auto-resolvable and seen in the last 24 hours |
| FalsePositiveData.SeverityKeys | agents/opsec/scripts/false-positive-manager.cjs:251-256 | Each severity bucket of a table is the number of keys whose entry has that severity |
| FalsePositiveData.TotalOccurrences | agents/opsec/scripts/false-positive-manager.cjs:247 | The sum of counts is at least the number of entries when every count is at least 1 |
| FalsePositiveData.TotalOccurrencesAppend | agents/opsec/scripts/false-positive-manager.cjs:247 | The sum of counts over a concatenation is the sum of the two sums |
| FalsePositiveData.OneMoreOccurrence | agents/opsec/scripts/false-positive-manager.cjs:247 | Raising one entry's count by 1 (what `increment` does) raises `total_occurrences` by exactly 1 |
| FalsePositiveData.IncrementAddsOccurrence | agents/opsec/scripts/false-positive-manager.cjs:163-189 | Replacing one key's entry by one with a count higher by 1 (what `increment` stores) raises the table's `total_occurrences` by exactly 1 |
| FalsePositiveData.FirstMaxIndex | agents/opsec/scripts/false-positive-manager.cjs:248 | The index found is the first position with the largest count (`IsFirstMax`), that is, the head of a stable sort by descending count |
| FalsePositiveData.FirstMaxUnique | agents/opsec/scripts/false-positive-manager.cjs:248 | At most one position is the first with the largest count, so `most_frequent` is determined |
| FalsePositiveData.MostFrequent | agents/opsec/scripts/false-positive-manager.cjs:248 | `most_frequent` is "none" for an empty table. Otherwise it is the id of the first entry with the largest count, or "none" when that id is empty |
| FalsePositiveData.SeverityBucketsBounded | agents/opsec/scripts/false-positive-manager.cjs:251-256 | The four severity buckets together count at most every entry |
| FalsePositiveData.StatsOf | agents/opsec/scripts/false-positive-manager.cjs:240-258 | `total` is the number of entries. `total_occurrences` is the sum of their counts. `auto_resolvable` is the number of entries with `auto_resolve`, and `recent_24h` the number last seen less than a day before now. Each severity bucket is the number of entries with exactly that severity, and the buckets sum to at most `total`. `most_frequent` is "none" for an empty table and otherwise the id of the first entry with the largest count ("none" if that id is empty) |
| FalsePositiveRegistry.FalsePositiveManager.GetStats | agents/opsec/scripts/false-positive-manager.cjs:240-258 | The statistics of the manager's own table. `total` is its number of keys. `total_occurrences` is the sum of the counts of `Object.values`. `auto_resolvable`, `recent_24h` and each severity bucket are the numbers of keys whose entries match. `most_frequent` is "none" for an empty table and otherwise the id of the first entry in key order with the largest count |
| PluginAutoEnable.Apply | src/config/plugin-auto-enable.test.ts:6-17 | Auth profiles, the global switch and the deny list come back unchanged |
| PluginAutoEnable.GlobalOffIsNoOp | src/config/plugin-auto-enable.test.ts:111-123 | With `plugins.enabled: false` the configuration comes back unchanged and the change log is empty |
| PluginAutoEnable.SlackUnderGlobalOff | src/config/plugin-auto-enable.test.ts:111-123 | The test's input: slack stays without `enabled`, gets no entry, and nothing is logged |
| PluginAutoEnable.UnchangedUnlessLogged | src/config/plugin-auto-enable.test.ts:20-31 | A name the change log does not mention keeps its channel block and plugin entry exactly |
| PluginAutoEnable.LoggedMeansSwitchedOn | src/config/plugin-auto-enable.test.ts:5-18 | A logged name's switch went from not-on to on. A built-in channel is switched in `channels` (other fields kept) with its plugin entry untouched; any other name in `plugins.entries` with its channel block untouched |
| PluginAutoEnable.LoggedOnlyIfConfigured | src/config/plugin-auto-enable.test.ts:64-109 | Only configured channels and auth-profile plugins are ever switched on, and never an inactive one |
| PluginAutoEnable.InactiveNeverSwitched | src/config/plugin-auto-enable.test.ts:20-31 | An explicit `enabled: false` (in the channel block or the plugin entry) or a deny-list entry is never flipped and never logged |
| PluginAutoEnable.SlackExplicitlyDisabled | src/config/plugin-auto-enable.test.ts:20-31 | The test's input: slack stays false, gets no plugin entry, and the change log is empty |
| PluginAutoEnable.ExplicitEnableKept | src/config/plugin-auto-enable.test.ts:146-160 | An explicit `enabled: true` is kept, not logged, and its block and entry are untouched |
| PluginAutoEnable.ConfiguredChannelEnabled | src/config/plugin-auto-enable.test.ts:47-62 | A configured, active, unsuppressed name ends up switched on, and is logged iff it was not on before. A built-in one gets no plugin entry |
| PluginAutoEnable.IrcConfiguredFromEnv | src/config/plugin-auto-enable.test.ts:33-45 | `IRC_HOST` and `IRC_NICK` make irc configured without a `channels.irc` block |
| PluginAutoEnable.IrcEnabledFromEnv | src/config/plugin-auto-enable.test.ts:33-45 | The test's input: `channels.irc.enabled` becomes true, no irc entry, irc logged |
| PluginAutoEnable.TelegramAndDiscordEnabled | src/config/plugin-auto-enable.test.ts:47-62 | The test's input: telegram and discord are both enabled in `channels`, and neither gets a plugin entry |
| PluginAutoEnable.NewlyAllowedMembers | src/config/plugin-auto-enable.test.ts:9-16 | The names appended to the allow list are exactly the catalogue's switched-on names not already allowed |
| PluginAutoEnable.AllowListExtended | src/config/plugin-auto-enable.test.ts:9-16 | An allow list keeps its items and their order as a prefix. After them come exactly the built-in channels switched on in this pass that it lacked. An absent list stays absent |
| PluginAutoEnable.SlackEnabled | src/config/plugin-auto-enable.test.ts:5-18 | The test's input: `channels.slack.enabled` is true, there is no slack entry, and slack is logged |
| PluginAutoEnable.SlackOnlyChange | src/config/plugin-auto-enable.test.ts:5-18 | The test's input: slack is the only name logged |
| PluginAutoEnable.SlackAllowed | src/config/plugin-auto-enable.test.ts:16 | The test's input: `["telegram"]` becomes `["telegram", "slack"]` |
| PluginAutoEnable.AuthProfileEnablesPlugin | src/config/plugin-auto-enable.test.ts:64-80 | A profile whose provider is in the auth table switches on `plugins.entries["<provider>-auth"]` |
| PluginAutoEnable.AntigravityAuthPluginEnabled | src/config/plugin-auto-enable.test.ts:64-80 | The test's input: `google-antigravity-auth` is enabled |
| PluginAutoEnable.BlueBubblesEntryEnabled | src/config/plugin-auto-enable.test.ts:82-93 | The test's input: bluebubbles, not being built in, is enabled in `plugins.entries` |
| PluginAutoEnable.MixedChannelsEnabled | src/config/plugin-auto-enable.test.ts:95-109 | The test's input: telegram is enabled in `channels` with no entry, and bluebubbles is enabled in `plugins.entries` |
| PluginAutoEnable.PreferredSuppressesOther | src/config/plugin-auto-enable.test.ts:126-144 | While the preferred channel is configured and active, the other one is neither switched on nor logged, and its block and entry are untouched |
| PluginAutoEnable.BlueBubblesPreferred | src/config/plugin-auto-enable.test.ts:126-144 | The test's input: bluebubbles is enabled and logged; imessage has no entry, no `enabled`, and is not logged |
| PluginAutoEnable.IMessageExplicitEnableKept | src/config/plugin-auto-enable.test.ts:146-160 | The test's input: bluebubbles is enabled, `channels.imessage.enabled` stays true, and imessage has no entry |
| PluginAutoEnable.OtherEnabledWhenPreferredInactive | src/config/plugin-auto-enable.test.ts:162-193 | When the preferred channel is explicitly disabled or denied, the other one (configured, active, not yet on) is switched on and logged |
| PluginAutoEnable.IMessageEnabledWhenBlueBubblesDisabled | src/config/plugin-auto-enable.test.ts:162-177 | The test's input: the bluebubbles entry stays false, imessage is enabled and logged |
| PluginAutoEnable.IMessageEnabledWhenBlueBubblesDenied | src/config/plugin-auto-enable.test.ts:179-193 | The test's input: denied bluebubbles gets no entry, and imessage is enabled |
| PluginAutoEnable.IMessageAloneEnabled | src/config/plugin-auto-enable.test.ts:195-205 | The test's input: imessage alone is enabled and logged |
| TopicAddress.DecimalString | src/cron/isolated-agent/delivery-target.test.ts:154-159 | A thread id's decimal spelling is a non-empty run of digits |
| TopicAddress.DecimalRoundTrip | src/cron/isolated-agent/delivery-target.test.ts:154-159 | Reading back the decimal spelling gives the number |
| TopicAddress.DigitSuffixLength | src/cron/isolated-agent/delivery-target.test.ts:154 | The trailing run of digits is maximal: all digits, and preceded by a non-digit or the start |
| TopicAddress.DigitSuffixOfFormatted | src/cron/isolated-agent/delivery-target.test.ts:154 | In `<chat>:topic:<digits>` the trailing digit run is exactly `<digits>` |
| TopicAddress.Parse | src/cron/isolated-agent/delivery-target.test.ts:154-159 | An accepted address is a non-empty chat, then the `:topic:` marker, then a non-empty run of digits whose value is the thread id |
| TopicAddress.ParseComplete | src/cron/isolated-agent/delivery-target.test.ts:154-159 | Conversely, every non-empty chat followed by the marker and a non-empty run of digits is accepted, giving back that chat and the digits' value |
| TopicAddress.ParseFormat | src/cron/isolated-agent/delivery-target.test.ts:154-159 | Round trip: formatting a non-empty chat and a thread id and parsing the result gives both back |
| DeliveryTarget.FirstMatch | src/cron/isolated-agent/delivery-target.test.ts:97-119 | The index found is that of a binding for (agent, channel) with none before it, or the table length when there is none |
| DeliveryTarget.ResolveThread | src/cron/isolated-agent/delivery-target.test.ts:141-160 | A thread embedded in the address wins. Otherwise the hint's thread is used. A stored thread is used only when the session last spoke to this very channel and address |
| DeliveryTarget.Resolve | src/cron/isolated-agent/delivery-target.test.ts:152-158 | Fails (`ResolutionError`) iff neither the hint nor channel selection names a channel. Otherwise the target's channel is the hint's (else the selected one) and `to` is the hint's, unmodified |
| DeliveryTarget.SessionAccountWins | src/cron/isolated-agent/delivery-target.test.ts:55-82 | A main-session record that last spoke on the target channel with an account supplies that account, whatever the bindings say |
| DeliveryTarget.SessionAccountPreserved | src/cron/isolated-agent/delivery-target.test.ts:55-82 | The test's input: "session-account" wins over the binding's "account-b" |
| DeliveryTarget.BindingFallback | src/cron/isolated-agent/delivery-target.test.ts:35-95 | Without a usable session account, the account is that of the first binding for (agent, channel), and absent when no binding matches |
| DeliveryTarget.BoundAccountUsed | src/cron/isolated-agent/delivery-target.test.ts:35-53 | The test's input: "account-b" |
| DeliveryTarget.NoAccount | src/cron/isolated-agent/delivery-target.test.ts:84-95 | The test's input: no account |
| DeliveryTarget.NonMatchingBindingIgnored | src/cron/isolated-agent/delivery-target.test.ts:97-139 | Inserting a binding for another agent or another channel anywhere in the table never changes the account |
| DeliveryTarget.OtherAgentIgnored | src/cron/isolated-agent/delivery-target.test.ts:97-119 | The test's input: agent-a's binding is skipped and "account-b" is used |
| DeliveryTarget.OtherChannelIgnored | src/cron/isolated-agent/delivery-target.test.ts:121-139 | The test's input: a discord binding gives no account on telegram |
| DeliveryTarget.TopicThreadExtracted | src/cron/isolated-agent/delivery-target.test.ts:141-160 | For a composite `to`, whatever the channel, session, bindings and hint thread id, resolution succeeds whenever a channel is known. `to` is unchanged and the thread id is the embedded one |
| DeliveryTarget.TopicThreadOverridesSession | src/cron/isolated-agent/delivery-target.test.ts:141-160 | The test's input: channel telegram, `to` "-1001234567890:topic:123", thread 123 rather than the stored 999 |
| SessionRecorder.Inbound | src/channels/session.test.ts:48-65 | The keys after a message are the old keys, the message's session key, and the route's session key when the route is taken |
| SessionRecorder.RouteApplies | src/channels/session.test.ts:22-124 | A proposed route is taken iff neither the message's originating channel nor the route's channel is `webchat` |
| SessionRecorder.SessionStore.constructor | src/channels/session.test.ts:28-45 | A store seeded with records whose routes are all external |
| SessionRecorder.SessionStore.RecordInboundSession | src/channels/session.test.ts:48-65 | After a successful save the store is exactly `Inbound` of the old store. A failed save leaves the store unchanged and is reported rather than raised. The invariant "no route names an internal surface" is kept |
| SessionRecorder.InboundKeepsRoutesExternal | src/channels/session.test.ts:22-73 | Every inbound message preserves the invariant that no stored `lastChannel` or `deliveryContext` names an internal surface |
| SessionRecorder.InternalLeavesRoute | src/channels/session.test.ts:22-73 | A message from `webchat` leaves `lastChannel`, `lastTo`, `lastAccountId` and `deliveryContext` of every record unchanged, even though it proposes `{channel: "webchat", to: ""}` |
| SessionRecorder.ExternalTakesRoute | src/channels/session.test.ts:97-123 | A message from an external channel with an external route sets that session's `lastChannel`, `lastTo`, `lastAccountId` and `deliveryContext` to the route |
| SessionRecorder.OnlyItsSessionsChange | src/channels/session.test.ts:48-65 | Records of other session keys are untouched. The message's own record carries its origin metadata, with `updatedAt` at least now |
| SessionRecorder.ReplaySplit | src/channels/session.test.ts:48-65 | Recording a run of messages then one more is recording the longer run |
| SessionRecorder.ReplayDelivery | src/channels/session.test.ts:22-123 | After any run of messages, a session's delivery context is the route of the last external message routed to it, or the one it started with; internal messages in between never matter |
| SessionRecorder.WebchatKeepsTelegram | src/channels/session.test.ts:22-73 | The test's input: telegram keeps `lastChannel` and the delivery context (channel telegram, to "telegram:123") |
| SessionRecorder.DiscordTakesOver | src/channels/session.test.ts:75-124 | The test's input (a telegram-owned session with no account): `lastChannel` and the delivery context become discord, "channel:discord-456" |

## Left out

- File I/O of the registry is not modelled: reading and parsing the data file, the atomic temp-file write, and the exception `saveData` may raise. `saveData`'s one in-memory effect, stamping `metadata.last_updated`, is kept.
- The data file is assumed to parse into well-formed records. A `config` section that is missing, or values that are not integers, are not modelled.
- The regular-expression engine, its case-insensitive flag and the `regexCache` are left out. The engine is the pair of parameters `compiles` and `matches`. The cache is not represented: it is keyed by id and cleared when `cleanup` deletes that id, and patterns never change, so a cache hit gives the same answer as a fresh compile.
- MD5 hashing of the error message is left out: the message itself is the key of the recent-error map.
- `Date`, ISO timestamps and `Date.now()` become integer milliseconds passed in as `now`.
- `list` and `exportTrainingData` are not modelled. The sort comparator never returns 0, so the order of ties depends on the engine.
- `_calculateAvgOccurrencesPerDay` is not modelled because it is floating point.
- `generateReport` and `generateSlackAlert` (locale-dependent formatting) and the command-line interface are not modelled.
- JavaScript lists keys that are canonical array indices ("0", "123", but not "0123") first, in ascending numeric order, in `Object.keys`, `Object.values` and `Object.entries`. The key order here is insertion order. So a table holding such ids lists them earlier in the engine than in this model.
- FalsePositiveRegistry.FalsePositiveManager.Increment: the JavaScript trims with `slice(-max)`. A limit of 0 therefore keeps the whole history, and a negative limit drops records from the front. The model does exactly that, and `Incremented` states the length bound only for limits of at least 1. The lookup `false_positives[id]` also walks the prototype chain. For an id such as `toString`, `constructor` or `__proto__`, the source finds the inherited value, sets `count` and `last_seen` on it (for `__proto__`, on `Object.prototype` itself), and then throws a TypeError at `history.push`. The model treats every id that is not a key of the table as unknown: it returns none and changes nothing. No such id can ever be a key, because `add` rejects it (`PrototypeNamesRejected`).
- FalsePositiveRegistry.FalsePositiveManager.Add: the default `options = {}` is not modelled as such. Callers pass an `AddOptions` value, and the empty default is the value with empty strings, `false` and empty lists.
- FalsePositiveRegistry.FalsePositiveManager.Increment: the defaults `context = ''`, `resolved = false` and `resolutionMethod = 'auto'` are not modelled. Callers pass all three.
- FalsePositiveRegistry.FalsePositiveManager.CheckMatch: the default `processName = ''` is not modelled. Callers pass it, and the empty string is the default.
- FalsePositiveRegistry.FalsePositiveManager.Cleanup: the default `olderThanDays = 30`, and the command line's `parseInt(...) || 30`, are not modelled. Callers pass the number of days.
- FalsePositiveRegistry.FalsePositiveManager.Cleanup: the cutoff is an unbounded integer, but a JavaScript `Date` only holds ±8.64e15 ms. Once |olderThanDays| goes past about 1e8, the source's cutoff is an Invalid Date, every comparison with it is false, and nothing is removed. The model instead removes every entry for such a large negative `olderThanDays`. For such a large positive one it removes none, like the source.
- The implementation files `src/config/plugin-auto-enable.ts`, `src/cron/isolated-agent/delivery-target.ts` and `src/channels/session.ts` are not part of this model. The reference definitions are pinned to the tests and the documented rules. They do not model:
  - tables beyond the values the tests use;
  - exact change-message wording: the change log is a set of names;
  - the order of several built-in channels appended to the allow list in one pass: catalogue order is chosen;
  - the allow list for plugin (non-built-in) entries, which is left unchanged;
  - idempotence of auto-enable.
- PluginAutoEnable.Apply: a channel counts as configured when it has a block in `channels` (or its environment variables are set). The per-channel checks for which fields make a block configured are not modelled.
- Malformed configuration sections that the resolver treats as absent are not modelled, because the datatypes admit only well-formed ones.
- Channel selection, the session-store path and the main-session-key function of the delivery-target resolver are collaborators. They appear as `selected` and `mainKey`, and the test mocks are not modelled. Asynchrony and the selection timeout are left out.
- DeliveryTarget.ResolveThread: when the address has no topic suffix, the hint's thread id is used. Failing that, the stored `lastThreadId` is used, but only if the session last spoke to the very same channel and address. The tests assert only the composite-address case.
- The session store's files, temporary directories, locking and the `onRecordError` callback are not modelled. A failed save is the flag `saved`, and the reported error is the method's result.
- Malformed stored session records are not modelled, because the store is typed.
- SessionRecorder.RouteApplies: a route is taken only when both the originating channel and the proposed route's channel are external. The tests exercise only the cases where the two agree.
- The gateway's control-UI HTTP handling and the pm2 process configuration are outside this model.
