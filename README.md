# Ring automation bridge: event admission, deduplication and producers

This project models the core of the Ring automation bridge in Dafny. The bridge
watches Ring doorbells, cameras and alarm panels and forwards what it sees to an
n8n webhook. Events reach it through two overlapping channels:

- push subscriptions on each camera and alarm panel;
- a polling sweep over active dings, location history and camera checks.

Every producer routes an event through the same gate:
`!isEventExcluded(t) && shouldSendEvent(t, data)`, then `sendToN8n(t, data)`. The
gate works over three pieces of module-level state:

- the `eventStats` counters;
- the `recentEvents` map used for deduplication;
- the log of POST requests made to the webhook.

## How the model is built

- **Shared state.** Each piece of shared state is a class:
  - `EventStats.Table` holds the counters;
  - `Deduplication.RecentEvents` holds the recent keys;
  - `Webhook.Sink` holds the POST log.
- **Bridge.** `Admission.Bridge` holds one of each. Its `Emit` method is the
  gated send, and its contract ties the new state to the pure function
  `Admission.Step`.
- **Runs.** A run of sends is `Admission.Run`.
- **Producers.** Each producer is a method whose contract states its new state
  as `Run` of a pure list of events. The producers are the camera callbacks,
  the alarm listener, the polling sweep and the device discovery report. The
  properties the code promises are then proved about those lists.
- **JavaScript values.** These are the datatype `JsValue.Value`, with
  truthiness, `||`, `&&` and template-literal text.
- **String built-ins.** `trim`, `split`, `join`, `includes`, `slice`, `parseInt`
  and string `isNaN` are in `JsText`.
- **Host inputs.** Everything owned by the host is a parameter of
  `Admission.Env`:
  - the configuration;
  - `JSON.stringify`;
  - `new Date(x).toISOString()`;
  - the outcome of the n-th POST.
- **Clock.** The clock is an explicit `now`, one per callback or polling tick.
- **Ring calls.** Results of calls into the Ring client (`getHistory`,
  `getDevices`, `getHealth`, `getSnapshot`, `getEvents`) are inputs of type
  `Settled`: a value, or a throw.
- **Subscriptions.** A push is one call of the matching callback method.

## Behaviours the proofs bring out

**Deduplication**
- A stored timestamp of `0` is falsy, so at clock `0` nothing is ever a
  duplicate (`Deduplication.ZeroClockNeverBlocks`).
- An entry aged exactly 60000 ms survives the sweep, but lookup already treats
  it as expired (`Deduplication.BoundaryEntry`).

**Doorbell events**
- Polling reports a doorbell press as `doorbell_press`. The subscription
  reports it as `doorbell_pressed`. Their keys can never be equal, so the two
  channels never deduplicate each other's doorbell events
  (`Polling.DoorbellChannelsNeverMeet`), so a press seen on both channels is
  delivered twice.
- A subscription doorbell event has neither `id` nor `alarmId`. It is keyed by
  the first 50 characters of its serialized data (`Camera.DoorbellKey`).

**Motion events**
- The motion channels do meet. A polled motion ding and the subscription's
  `motion_detected` copy of the same ding share a key when the ding has an
  `id_str` (`Polling.MotionChannelsMeet`).
- The camera-events check uses only the first element of `getEvents`; the
  source's own comment at polling.js:178 reads "Get the most recent motion
  event" (`Polling.CameraFailuresAreIsolated`).
- Consider a data tick whose payload is both `motion === false` and
  `motion_status === 'detected'`. Ticks repeating it alternate between firing
  a motion edge and resetting the state, so four such ticks report two motion
  edges (`Camera.MixedTickAlternates`).

**Failed sends**
- Some callbacks await `sendToN8n` with no `catch`: doorbell, motion flag,
  active dings and alarm change. In those, a rejected POST ends the callback.
  - For an active ding, the `motion_detected` copy is then not attempted.
  - For an alarm change, `previousMode` is then not updated, so the same
    change is tried again on the next push (`Alarm.EscapedPushIsRetried`).

## Model

| member | source | states |
|---|---|---|
| `EventStats.Initial` | src/utils/eventStats.ts:4-9 | every category starts empty, so every counter reads 0 (same in eventStats.js:2-7) |
| `EventStats.Bump` | src/utils/eventStats.ts:13 | the entry goes up by one from a default of 0, gains its key, and no other entry changes |
| `EventStats.Track` | src/utils/eventStats.ts:13 | `trackEvent(c, e)` adds one to `stats[c][e]`; every other (category, type) counter and every other category is unchanged |
| `EventStats.TrackNeverDecreases` | src/utils/eventStats.ts:12-14 | after `trackEvent` no counter is lower, and the tracked one is strictly higher |
| `EventStats.OfTrack` | src/utils/eventStats.ts:13 | tracking rewrites exactly the one category map, by one bump |
| `EventStats.BumpCommutes` | src/utils/eventStats.ts:13 | two bumps of one category map commute |
| `EventStats.TrackCommutes` | src/utils/eventStats.ts:12-14 | two `trackEvent` calls commute, so counts do not depend on call order |
| `EventStats.Table.constructor` | src/utils/eventStats.ts:4-9 | the table starts as `Initial()` |
| `EventStats.Table.TrackEvent` | src/utils/eventStats.ts:12-14 | the table's new state is `Track` of its old state (same in eventStats.js:10-12) |
| `EventFilter.AfterExclusion` | src/utils/eventFilter.ts:8-13 | an excluded type adds exactly one to `blocked[t]`; any other counter, and every counter when not excluded, is unchanged |
| `EventFilter.IsEventExcluded` | src/utils/eventFilter.ts:7-14 | returns true iff `t` is in the exclusion list and updates only the counters, as `AfterExclusion` says (same in eventFilter.js:6-13) |
| `Webhook.Headers` | src/clients/webhook.js:34-37 | `Authorization` is present iff the auth header is configured, holds exactly that value, and is the only header |
| `Webhook.MakePayload` | src/clients/webhook.js:27-32 | the payload carries the caller's type and data, `source = 'ring-doorbell'` and the given timestamp |
| `Webhook.Route` | src/clients/webhook.js:13-46 | four exclusive outcomes: excluded; no URL; delivered when the POST succeeded; failed when it did not |
| `Webhook.OneOutcomeCounted` | src/clients/webhook.js:7-64 | `received[t]` and exactly one of blocked/errors/sent go up by one; nothing else changes |
| `Webhook.Sink.constructor` | src/clients/webhook.js:40 | no request has been made yet |
| `Webhook.Sink.Post` | src/clients/webhook.js:40 | the request is appended to the log |
| `Webhook.SendToN8n` | src/clients/webhook.js:7-64 | the returned outcome is `Route`; the counters follow it; one request is logged exactly when a POST is made |
| `Deduplication.EmptyKeyIgnored` | src/services/deduplication.ts:23 | an empty key is never a duplicate and leaves the map unchanged |
| `Deduplication.FreshKeyIsDuplicate` | src/services/deduplication.ts:28-31 | a key stored with a truthy timestamp younger than the TTL is a duplicate, and its timestamp is not refreshed |
| `Deduplication.StaleKeyIsRecorded` | src/services/deduplication.ts:33-34 | otherwise the key is not a duplicate, is stored at `now`, and no other key changes |
| `Deduplication.SecondLookupIsDuplicate` | src/services/deduplication.ts:21-35 | two lookups of one non-empty key at one non-zero clock answer false then true |
| `Deduplication.ZeroClockNeverBlocks` | src/services/deduplication.ts:28 | at clock 0 the stored 0 is falsy, so even the second lookup is not a duplicate |
| `Deduplication.Swept` | src/services/deduplication.ts:13-17 | the sweep keeps exactly the entries with `now - ts <= 60000`, unchanged |
| `Deduplication.SweepInvisible` | src/services/deduplication.ts:9-18 | sweeping never changes the answer of a later lookup |
| `Deduplication.BoundaryEntry` | src/services/deduplication.ts:14 | an entry aged exactly 60000 survives the sweep yet is not a duplicate |
| `Deduplication.SweepsCompose` | src/services/deduplication.ts:9-18 | an earlier sweep followed by a later one is the later one alone |
| `Deduplication.RecentEvents.constructor` | src/services/deduplication.ts:6 | the map starts empty |
| `Deduplication.RecentEvents.IsDuplicateEvent` | src/services/deduplication.ts:21-35 | returns `IsDuplicate` of the old map and leaves `Recorded` of it |
| `Deduplication.RecentEvents.Sweep` | src/services/deduplication.ts:9-18 | the loop over the entries leaves exactly `Swept` of the old map |
| `Deduplication.EventKey` | src/services/deduplication.ts:38-64 | a motion key starts with `motion-`; any other starts with the type and `-` |
| `Deduplication.FirstMatch` | src/services/deduplication.ts:40-50 | no rule gives a key iff none of the seven motion rules applies |
| `Deduplication.FirstMatchIsFirst` | src/services/deduplication.ts:40-50 | the first applicable rule, and no later one, gives the key |
| `Deduplication.MotionKeyFollowsRules` | src/services/deduplication.ts:40-56 | the motion key is `motion-` plus the first matching rule, in the order id, dingId, cameraId+timestamp, deviceId+timestamp, eventCreatedAt, eventData.id, dingData.id_str; otherwise the last-resort key |
| `Deduplication.OtherKeyFollowsRules` | src/services/deduplication.ts:58-63 | every other key is the type, `-`, then `id`, else `alarmId`, else the first 50 characters of the serialized data |
| `Deduplication.MotionKeyAt` | src/services/deduplication.ts:40-56 | the same, stated by the index of the first guard that holds |
| `Deduplication.KeyClockIndependent` | src/services/deduplication.ts:59-63 | the key depends on the clock only in the motion last-resort branch |
| `Deduplication.LastResortBuckets` | src/services/deduplication.ts:53-55 | two last-resort keys are equal iff the clocks fall in the same 5000 ms bucket |
| `Deduplication.AfterDedup` | src/services/deduplication.ts:70-73 | a duplicate adds exactly one to `blocked['duplicate_' + t]`; nothing else changes |
| `Deduplication.ShouldSendEvent` | src/services/deduplication.ts:67-77 | returns true iff the generated key is not a duplicate; the map and the counters change as `Recorded` and `AfterDedup` say |
| `JsText.TrimStart` | src/config/index.js:33 | the result is the suffix left after dropping the leading white space |
| `JsText.TrimEnd` | src/config/index.js:33 | the result is the prefix left after dropping the trailing white space |
| `JsText.Trim` | src/config/index.js:33 | the result has no white space at either end and is no longer than the input |
| `JsText.TrimIdempotent` | src/config/index.js:33 | trimming twice is trimming once |
| `JsText.TrimOfTrimmed` | src/config/index.js:33 | a string with no white space at either end is its own trim |
| `JsText.TrimChars` | src/config/index.js:33 | every character of the trim is a character of the input |
| `JsText.Split` | src/config/index.js:32 | `split(',')` yields at least one piece, and no piece holds the separator |
| `JsText.JoinSplit` | src/config/index.js:32 | joining the pieces of a split gives back the string |
| `JsText.SplitJoin` | src/config/index.js:32 | splitting a join of separator-free pieces gives back the pieces |
| `JsText.ContainsIff` | src/handlers/devices.ts:55 | `includes` holds iff the text occurs at some position |
| `JsText.Take` | src/services/deduplication.ts:63 | `slice(0, 50)` is the prefix of length min(50, length) |
| `JsText.NatText` | src/services/deduplication.ts:55 | the decimal text of a natural number is digits only, with no leading zero |
| `JsText.NatTextValue` | src/config/index.js:43 | the decimal text reads back as the number |
| `JsText.ParseIntText` | src/config/index.js:43 | `parseInt(String(n)) == n` for every integer |
| `JsText.NumbersAreNotNaN` | src/config/index.js:14 | the text of an integer is not NaN, and neither is a blank string |
| `JsText.TrimmedNaN` | src/config/index.js:14 | `isNaN(s.trim())` equals `isNaN(s)` |
| `JsText.LiteralNotNaN` | src/config/index.js:14 | a trimmed decimal literal is not NaN |
| `JsValue.Or` | src/services/polling.js:21 | the logical OR is truthy iff either operand is, and is one of the two |
| `JsValue.And` | src/handlers/camera.ts:190 | the logical AND is truthy iff both operands are, and is one of the two |
| `AppConfig.Fallback` | src/config/index.js:58-59 | the first variable if set, otherwise the second |
| `AppConfig.TrimmedNonEmpty` | src/config/index.js:33-34 | every kept piece is trimmed and non-empty, and no more pieces than were given are kept |
| `AppConfig.TrimmedNonEmptyIff` | src/config/index.js:33-34 | a string is kept iff it is non-empty and the trim of some piece |
| `AppConfig.ParseExcludedEvents` | src/config/index.js:30-35 | an unset variable gives the empty list; no element is empty, untrimmed or holds a comma |
| `AppConfig.ExcludedEventsMembership` | src/config/index.js:30-35 | a type is excluded iff it is the non-empty trim of some comma-separated piece |
| `AppConfig.ExcludedEventsRoundTrip` | src/config/index.js:30-35 | joining a clean list of types with commas and parsing it gives the list back |
| `AppConfig.Resplit` | src/config/index.js:31-34 | a non-empty clean list survives join, split, trim and filter unchanged |
| `AppConfig.ExcludedEventsOfSet` | src/config/index.js:31-34 | a set variable is split on commas, trimmed and filtered |
| `AppConfig.TrimmedNonEmptyOfClean` | src/config/index.js:33-34 | trimming and filtering a clean list changes nothing |
| `AppConfig.NumericPieces` | src/config/index.js:14 | a piece is kept, untrimmed, iff its trim is numeric, and no more pieces than were given are kept |
| `AppConfig.NumericPiecesSingle` | src/config/index.js:14 | one piece is kept exactly when its trim is numeric |
| `AppConfig.NumericPiecesAppend` | src/config/index.js:14 | filtering a concatenation concatenates the filtered parts, so order and repeats are kept |
| `AppConfig.ParseLocationIds` | src/config/index.js:7-27 | an unset variable gives undefined; otherwise the numeric pieces of the split, in order (`AppConfig.NumericPiecesAppend`), or undefined when none survive |
| `AppConfig.BlankLocationIdKept` | src/config/index.js:14 | a blank piece counts as numeric and is kept |
| `AppConfig.LocationIdsRoundTrip` | src/config/index.js:7-27 | the comma-joined texts of a non-empty list of integers parse back as those texts |
| `AppConfig.NumericPiecesOfNumbers` | src/config/index.js:14 | the text of every integer is kept |
| `AppConfig.LoadConfig` | src/config/index.js:38-61 | each field is read from its variable: debug iff `DEBUG === 'true'`, the two parsers, the token, and the URL and auth header with their fallbacks |
| `AppConfig.PollingInterval` | src/config/index.js:43 | the interval defaults to 10000 when unset and is `parseInt` of the variable otherwise |
| `AppConfig.WebhookFallbacks` | src/config/index.js:58-59 | the URL is `WEBHOOK_URL` when set, else `N8N_WEBHOOK_URL`; the auth header falls back the same way |
| `AppConfig.ValidateConfig` | src/config/index.js:64-81 | one error per missing token or URL, in that order; true iff neither is missing |
| `Admission.Step` | src/services/polling.js:32-36 | the gated send: excluded iff the type is excluded, and then dedup state and POST log are untouched; attempted iff not excluded and not a duplicate; at most one POST, appended |
| `Admission.RunAppend` | src/services/polling.js:9-220 | sending `a` then `b` is sending `a + b` |
| `Admission.RunMonotone` | src/utils/eventStats.ts:12-14 | along any run no counter goes down, the POST log only grows at its end, and by at most one per event |
| `Admission.StepMonotone` | src/utils/eventStats.ts:12-14 | no counter goes down across one gated send |
| `Admission.ReceivedCountsAdmitted` | src/clients/webhook.js:9-17 | `received[t]` goes up iff the event passed both gates, so the exclusion test inside `sendToN8n` never fires |
| `Admission.RepeatIsDuplicate` | src/services/deduplication.ts:67-77 | the same non-excluded event sent twice at one non-zero clock is blocked the second time |
| `Admission.RequestsAreForAdmittedTypes` | src/clients/webhook.js:27-40 | every POST of a run is for a non-excluded type, has the fixed source, and carries the type and data of one of the run's events |
| `Admission.Bridge.constructor` | src/services/deduplication.ts:6 | counters empty, no recent keys, no requests |
| `Admission.Bridge.Emit` | src/handlers/camera.ts:25-30 | the new shared state and the outcome are exactly `Step` |
| `Alarm.Panels` | src/handlers/alarm.ts:10 | a device is handled iff its `deviceType` is `security-panel` |
| `Alarm.InitialEvents` | src/handlers/alarm.ts:15-40 | at most one initial event per panel |
| `Alarm.ListenedIff` | src/handlers/alarm.ts:18 | a panel gets a listener iff it has `onData` |
| `Alarm.InitialStateEvents` | src/handlers/alarm.ts:25-40 | one `alarm_mode_state` per listened panel, in order, with `initial: true`, its `mode` and its id as `alarmId` |
| `Alarm.PushEvent` | src/handlers/alarm.ts:47-56 | a change event iff `data.mode` is defined and differs from `previousMode`; it carries the new and old modes and `alarmId`, and no `id` |
| `Alarm.PushUpdatesMode` | src/handlers/alarm.ts:43-68 | no change leaves everything alone; a change is one gated send, after which `previousMode` is the new mode unless the send threw |
| `Alarm.RepeatPushIsSilent` | src/handlers/alarm.ts:67 | after a push that did not throw, the identical push is a no-op |
| `Alarm.EscapedPushIsRetried` | src/handlers/alarm.ts:63-67 | after a push whose send threw, `previousMode` is unchanged and the same change fires again |
| `Alarm.ChangeKeyIsAlarmId` | src/handlers/alarm.ts:50-56 | a change event is keyed `alarm_mode_changed-{alarmId}` |
| `Alarm.SecondChangeWithinTtlIsBlocked` | src/handlers/alarm.ts:50-64 | a second change of one alarm within the TTL is blocked as a duplicate, though `previousMode` still advances |
| `Alarm.HomeAwayScenario` | src/handlers/alarm.ts:47-56 | from `home`, the push `{mode: 'away'}` reports previousMode home and mode away; the same push again reports nothing |
| `Alarm.AlarmListener.constructor` | src/handlers/alarm.ts:21 | the listener starts with `previousMode = alarm.mode` |
| `Alarm.AlarmListener.OnData` | src/handlers/alarm.ts:43-69 | the callback's new state, new `previousMode` and throw are exactly `Push` |
| `Alarm.SetUpPanel` | src/handlers/alarm.ts:18-73 | a panel with `onData` sends its initial state and gets a fresh listener holding its location, id and mode; one without changes nothing |
| `Alarm.SetUpNext` | src/handlers/alarm.ts:15-77 | one step of the panel loop keeps the run and the listener list in step with the panels processed |
| `Alarm.SetUpPanels` | src/handlers/alarm.ts:15-77 | the loop sends exactly `InitialEvents` and builds one listener per listened panel, in order |
| `Alarm.SetupAlarmHandlers` | src/handlers/alarm.ts:7-84 | a throwing `getDevices` changes nothing; otherwise the panels' initial events are sent and one listener is made per listened panel |
| `Camera.Feeds` | src/handlers/camera.ts:212-219 | the four set-up guards (lines 8, 43, 80, 134): doorbell iff `isDoorbot` and `onDoorbellPressed`; motion, active dings and data iff the camera has that subscription |
| `Camera.DoorbellKey` | src/handlers/camera.ts:13-29 | a subscription doorbell press is keyed by the first 50 characters of its serialized data |
| `Camera.MotionFlagEvents` | src/handlers/camera.ts:46-66 | one `motion_detected` from `onMotionDetected` iff the pushed value is truthy, otherwise none |
| `Camera.MotionFlagKey` | src/handlers/camera.ts:50-63 | with a camera id and a non-empty time, the key is `motion-{cameraId}-{timestamp}` |
| `Camera.MotionDingCopiesActiveDing` | src/handlers/camera.ts:106-118 | the motion copy has the same fields and values as the active ding except `detectionMethod` |
| `Camera.MotionDingKey` | src/handlers/camera.ts:108-118 | a motion ding with an `id_str` is keyed `motion-{id_str}` |
| `Camera.DingKeysDiffer` | src/handlers/camera.ts:101-118 | the `active_ding` and `motion_detected` attempts of one ding never share a key |
| `Camera.DingStep` | src/handlers/camera.ts:84-121 | the `active_ding` outcome is `Step`'s; the motion copy is attempted iff the kind is motion-like and the first send did not throw |
| `Camera.DingEvents` | src/handlers/camera.ts:101-119 | one `active_ding` first, then a `motion_detected` iff the kind is `motion` or `motion_detected` |
| `Camera.BatchEvents` | src/handlers/camera.ts:83-122 | at least one event per ding, ding by ding |
| `Camera.NoFailure` | src/clients/webhook.js:40-46 | with no URL or a network that never fails, no send throws |
| `Camera.DingStepHealthy` | src/handlers/camera.ts:101-119 | when no send throws, one ding's callback is the run of its events |
| `Camera.HealthyBatchIsFlat` | src/handlers/camera.ts:83-122 | when no send throws, a batch is the run of all its dings' events in order |
| `Camera.NextMotionState` | src/handlers/camera.ts:150-176 | the state is true after an edge, false after `motion === false`, and unchanged otherwise |
| `Camera.EdgeIdsDiffer` | src/handlers/camera.ts:156 | two edge ids are equal iff they were made at the same clock |
| `Camera.TickEvents` | src/handlers/camera.ts:143-201 | an `onData` motion event iff the tick is a false-to-true edge, then always one `camera_status_update` |
| `Camera.StatusMotionIsNarrower` | src/handlers/camera.ts:190 | the status `hasMotion` is `data.motion === true` only; `motion_status: 'detected'` has motion but a false `hasMotion` |
| `Camera.EdgeKey` | src/handlers/camera.ts:155-167 | an edge event is keyed by its own id |
| `Camera.EdgeKeysDiffer` | src/handlers/camera.ts:156 | edges at different clocks never deduplicate each other |
| `Camera.SustainedMotionReportedOnce` | src/handlers/camera.ts:139-176 | ticks that all show motion and never reset report one edge from a false state and none from a true state |
| `Camera.QuietTicksReportNothing` | src/handlers/camera.ts:139-176 | ticks without motion report no edge and never set the state |
| `Camera.MixedTickAlternates` | src/handlers/camera.ts:143-176 | a tick with both `motion: false` and `motion_status: 'detected'` toggles the state, so four of them report two edges |
| `Camera.CameraHandlers.constructor` | src/handlers/camera.ts:137 | the feeds are `Feeds(camera)` and `lastMotionState` starts false |
| `Camera.CameraHandlers.OnDoorbellPressed` | src/handlers/camera.ts:10-31 | the push is one gated `doorbell_pressed` send |
| `Camera.CameraHandlers.OnMotionDetected` | src/handlers/camera.ts:46-68 | the push is the run of `MotionFlagEvents` |
| `Camera.CameraHandlers.OnActiveDings` | src/handlers/camera.ts:83-122 | the loop over the batch leaves exactly `DingsRun` |
| `Camera.CameraHandlers.OnDing` | src/handlers/camera.ts:84-121 | one ding's callback extends `DingsRun` by one ding |
| `Camera.CameraHandlers.OnData` | src/handlers/camera.ts:139-202 | `lastMotionState` becomes `NextMotionState`, and the shared state is the run of `TickEvents` |
| `Polling.DingEvent` | src/services/polling.js:15-30 | a ding is reported iff truthy with kind `motion` or `ding`; the type is `motion_detected` for motion, else `doorbell_press` |
| `Polling.DingEvents` | src/services/polling.js:14-38 | at most one event per active ding, in order |
| `Polling.HistoryEvent` | src/services/polling.js:55-94 | an entry is reported iff truthy with an `id`, `ding_id_str` or `doorbot_id`; its type and data come from the entry |
| `Polling.HistoryClassification` | src/services/polling.js:68-81 | motion to `motion_detected`, ding to `doorbell_press`, another truthy kind to itself, otherwise `unknown_event` |
| `Polling.ChannelsClassifyAlike` | src/services/polling.js:30 | a motion or ding entry gets the same type from the ding path and the history path |
| `Polling.HistoryEvents` | src/services/polling.js:53-102 | at most one event per history entry, in order |
| `Polling.Cameras` | src/services/polling.js:111-116 | no more cameras than devices; which devices are cameras is `Polling.CamerasIff` |
| `Polling.CamerasIff` | src/services/polling.js:111-116 | a device is a camera iff its `deviceType` is `doorbot`, `floodlight_v2` or `stickup_cam` |
| `Polling.MotionSignalIff` | src/services/polling.js:139-143 | direct motion is the OR of `hasMotion`, `data.motion`, `health.motion` and `motion === true` |
| `Polling.LatestEvent` | src/services/polling.js:172-191 | a camera-events motion iff `getEvents` gave a non-empty list whose first element is neither null nor undefined; it uses that element only |
| `Polling.DirectEvent` | src/services/polling.js:139-157 | a direct motion event iff `getHealth` returned and the motion signal is truthy |
| `Polling.CameraEvents` | src/services/polling.js:121-205 | at most two events per camera, all `motion_detected` |
| `Polling.CamerasEvents` | src/services/polling.js:120-209 | at most two events per camera, camera by camera |
| `Polling.CameraFailuresAreIsolated` | src/services/polling.js:129-205 | the snapshot never matters; a throwing `getEvents` keeps the direct check; only the first motion event matters |
| `Polling.LocationEvents` | src/services/polling.js:43-215 | a throwing `getHistory` skips the location; a throwing `getDevices` keeps its history events |
| `Polling.FailedLocationIsSkipped` | src/services/polling.js:213-215 | a location whose history fetch throws adds nothing and leaves the other locations' events as they were |
| `Polling.DoorbellChannelsNeverMeet` | src/services/polling.js:30 | a polled `doorbell_press` key never equals a subscription `doorbell_pressed` key |
| `Polling.MotionChannelsMeet` | src/services/polling.js:21 | a polled motion ding and the subscription's motion copy of it share one key |
| `Polling.PollDing` | src/services/polling.js:14-38 | one ding of the loop extends the run by that ding's event, if any |
| `Polling.PollEntry` | src/services/polling.js:53-102 | one entry of the loop, `continue` included, extends the run by that entry's event, if any |
| `Polling.PollCamera` | src/services/polling.js:121-208 | one camera check is the run of `CameraEvents` |
| `Polling.PollHistory` | src/services/polling.js:47-105 | the history loop is the run of `HistoryEvents` |
| `Polling.PollCameras` | src/services/polling.js:108-212 | the camera loop is the run of `CamerasEvents` |
| `Polling.PollLocation` | src/services/polling.js:43-215 | one location is the run of `LocationEvents` |
| `Polling.PollRingEvents` | src/services/polling.js:9-220 | a whole poll is the run of `PollEvents`: the dings, then each location in turn |
| `Polling.StartPolling` | src/services/polling.js:223-240 | no locations: no timer and no poll; otherwise a timer at the configured interval and one immediate poll |
| `Devices.OfKindIff` | src/handlers/devices.ts:13-18 | a device is in the list for a kind iff its `kind`, defaulting to `unknown`, is that kind |
| `Devices.GroupsAreKinds` | src/handlers/devices.ts:13-18 | a group exists iff some device has that kind, and the group is those devices in input order |
| `Devices.GroupSizesSum` | src/handlers/devices.ts:13-18 | the group sizes add up to the number of devices |
| `Devices.GroupByKind` | src/handlers/devices.ts:12-18 | the in-place loop builds exactly `Grouped` |
| `Devices.EachIndex` | src/handlers/devices.ts:26-48 | the i-th report is for the i-th device |
| `Devices.BaseStationIff` | src/handlers/devices.ts:51-56 | a device is a base station iff its kind contains `base_station` |
| `Devices.SelectIff` | src/handlers/devices.ts:93-100 | a device is selected iff it is in the input and the filter holds |
| `Devices.CamerasDoorbellsFirst` | src/handlers/devices.ts:93-101 | the cameras are the doorbots and doorbells in input order, then the stickup cams in input order |
| `Devices.BaseStationsAreIncludes` | src/handlers/devices.ts:51-56 | the base stations are exactly the devices whose kind contains `base_station` |
| `Devices.DiscoveryReportsEveryDevice` | src/handlers/devices.ts:26-48 | one `device_found` per device, in input order, ahead of the base-station and camera reports, none of which is a `device_found` |
| `Devices.ReportEach` | src/handlers/devices.ts:26-48 | a report loop is the run of one event per device; a failed send does not stop it |
| `Devices.ProcessDiscoveredDevices` | src/handlers/devices.ts:7-132 | returns `Grouped` and sends exactly `DiscoveryEvents` |

## Left out

- HistoryClassification, HistoryType and PollEntry: a truthy `kind` that is not a string (say the number 5) becomes its text (`"5"`), since event types are strings throughout the model. The source keeps the raw value, so `isEventExcluded` never matches it and the payload's `eventType` is that non-string value. The dedup key is the same either way, as the template string converts the value to text.

- Floating point: numbers are integers, and `Date.now()` is an integer clock.
- The exact text of `JSON.stringify` is a parameter. Keys built from it are stated in terms of that parameter.
- `slice(0, 50)` counts characters, not UTF-16 code units.
- `toISOString` on an invalid date throws a `RangeError`. Here the date text is a total function parameter, so that throw is not modelled.
- `includes` on a non-string `kind` would throw a `TypeError`. The model treats a non-string as containing nothing.
- Key lookups do not model the prototype chain: `data.id` reads only the record's own fields.
- `!==` on objects compares identity. The model compares values, which differs only for object-valued modes.
- Asynchronous interleaving is not modelled. Each callback runs to completion, one at a time:
  - `dings.forEach(async …)` handles the dings of a batch in order, one after another;
  - the non-awaited `.catch` sends of the data callback are taken as completed;
  - the initial poll in `startPolling` is not awaited, and is taken as one complete poll.
- One `now` is used per callback or per poll. Separate `Date.now()` calls inside one callback read the same clock.
- A rejected promise that escapes a subscription callback has unhandled-rejection effects. These are not modelled; the model ends the callback.
- Logging (`info`, `debugLog`, `console`) only prints, and is not modelled.
- src/clients/ring.ts, src/clients/ring.js and src/index.ts are not part of this model. Their results are inputs, and `getActiveDings` is taken never to throw, as its wrapper catches.
- `isDuplicateEvent`'s `ttlMs` parameter is always its default 60000 at every call site, so the TTL is fixed.
- The `setInterval` timers are explicit calls: `RecentEvents.Sweep(now)` and `PollRingEvents`.
- A `null` device list or history page is taken as an empty one.
- Elements of an active-ding batch are records, so a `null` ding's `TypeError` in the subscription callback is not modelled.
- A `subscribe` call that throws is not modelled. Only its log line would differ.
- `logConfig` only prints, and is not modelled.
