# Visit telemetry and registration carousel

This project models two parts of a landing-page web application.

- **The per-visit tracking session** (`TrackingProvider`). It holds:
  - an Active/Inactive activity timer;
  - monotone interaction counters (scroll high-watermark, clicks, mouse movements, page views);
  - an append-only buffer of interaction events stamped with the visit id;
  - guard flags that make the snapshot send single-flight and the init beacon at-most-once;
  - a cooldown flag, raised by every send, that suppresses the teardown send until the first pending 5 s reset fires (the resets are never cancelled, so an earlier send's reset can clear it sooner than 5 s after the latest send);
  - two append-only fallback logs in local storage (`trackingData`, `initTrackingData`).
- **The registration-steps carousel** (`RegistrationStepsSlider`). It holds the shown step index and an animation lock.

The code is split into six modules:

- `TelemetryTypes` (telemetry_types.dfy): the values exchanged. Events, snapshots, request bodies, log records, settings, and call outcomes.
- `TelemetrySpec` (telemetry_spec.dfy): the session as a datatype `Session`, with one function per operation. Traces of actions (`Step`, `Run`) interleave page signals, timer callbacks, interface calls and the provider's lifecycle.
- `TelemetryInvariant` (telemetry_invariant.dfy): every operation keeps the session invariant `Inv` and only moves the session forward (`Extends`).
- `TelemetryProperties` (telemetry_properties.dfy): the promises over whole traces.
- `TelemetrySession` (telemetry_session.dfy): the provider's refs as the fields of the class `TrackingSession`. Its methods update the fields in place. Each handler, timer callback, interface call and lifecycle method ensures `State() == F(old(State()), ...)` for its function `F` of `TelemetrySpec`, and requires and ensures the invariant `Valid()`. For most methods `F` has the method's own name. The exceptions are:
  - `SendTrackingData` (`BeginSendTracking`);
  - `PostTrackingData` (`PostSendTracking`);
  - `ReplyTrackingData` (`ReplySendTracking`).

  The internal stages these methods are built from state only their effect on the fields. They are listed under "Left out".
- `Carousel` (carousel.dfy): the index arithmetic as functions, plus the class `StepsSlider`.

Environment inputs are parameters:

- The clock is the `now` parameter.
- The result of the IP lookup is an `Option<string>` parameter.
- A POST ends as a `Reply`: `Accepted` or `Rejected`.
- Whether a local-storage write succeeds is a `storageWritable` parameter.
- The three environment settings are a `Config` of optional strings. An empty string counts as missing, as JavaScript's `!value` does.
- Every timer callback is its own operation:
  - the 5 s cooldown reset;
  - the 100 ms scroll and 1000 ms mouse debounces;
  - the 30 s refresh;
  - the carousel's 500 ms unlock and 7 s auto-advance.
- A POST is recorded by appending its body to an outbox sequence (`trackingRequests`, `initRequests`).

`sendTrackingData` awaits twice (the IP lookup, then the POST), so it has three stages:

- `BeginSendTracking` is the synchronous prefix up to the first `await`: the guard, both flags, scheduling the reset, and capturing the event list.
- `PostSendTracking` runs when the IP lookup resolves. The snapshot is taken at that moment and the settings are checked:
  - If a setting is missing, the failure is logged and `isSending` is cleared. This is the `catch` and the `finally`.
  - Otherwise the payload is posted and the send awaits the reply (`awaitingReply`).
- `ReplySendTracking` runs when the reply arrives. A rejection is logged, and `isSending` is cleared either way.

Between the stages any other action can happen, so a click while the POST is out sees `isSending` set and does not change the posted payload. That interleaving is what the single-flight guard is about. `sendInitTracking` sets its flag and posts before its only `await`, so it is one operation (see "Left out").

## Model

| member | source | states |
|---|---|---|
| TelemetrySpec.NewSession | app/context/traking-context.tsx:84-101 | a new provider is Active since `now` with nothing accumulated and one page view; the buffer, both outboxes, both logs and the captured send list are empty and nothing is published; every flag (sending, awaiting a reply, cooldown, init sent, initialised) is down, no debounce is armed and no cooldown reset is pending; the invariant holds |
| TelemetrySpec.ReportedActiveTime | app/context/traking-context.tsx:176 | while Active the reported time is the accumulator plus `now - lastActivityTime`; while Inactive it is exactly the accumulator |
| TelemetrySpec.StartTimer | app/context/traking-context.tsx:383-388 | the timer is Active afterwards; from Inactive the watermark becomes `now`; an Active timer is left exactly as it was; accumulator and reported time unchanged; the snapshot send and its cooldown flag are untouched |
| TelemetrySpec.StopTimer | app/context/traking-context.tsx:390-395 | the timer is Inactive afterwards; from Active exactly `now - lastActivityTime` is added; an Inactive timer is left exactly as it was; reported time unchanged; the snapshot send and its cooldown flag are untouched |
| TelemetrySpec.UpdateScrollDepth | app/context/traking-context.tsx:398-403 | the new watermark is the maximum of the old one and the percentage: at least both, and equal to one of them; the snapshot send and its cooldown flag are untouched |
| TelemetrySpec.AddEvent | app/context/traking-context.tsx:352-360 | exactly one event is appended at the end, stamped with the visit id and `now`; earlier events are unchanged and in order; the snapshot send and its cooldown flag are untouched |
| TelemetrySpec.IncrementPageViews | app/context/traking-context.tsx:363-365 | the page-view counter grows by one; the snapshot send and its cooldown flag are untouched |
| TelemetrySpec.HandleFocus | app/context/traking-context.tsx:423-426 | the timer is started and one `focus` event is appended; the snapshot send and its cooldown flag are untouched |
| TelemetrySpec.HandleBlur | app/context/traking-context.tsx:428-431 | the timer is stopped, the reported time is unchanged, and one `blur` event is appended; the snapshot send and its cooldown flag are untouched |
| TelemetrySpec.HandleVisibilityChange | app/context/traking-context.tsx:433-439 | hidden stops the timer, visible starts it; the reported time and the buffer are unchanged; the snapshot send and its cooldown flag are untouched |
| TelemetrySpec.HandleScroll | app/context/traking-context.tsx:443-449 | the watermark becomes at once the maximum of the old one and the percentage (at least both, equal to one of them) and the scroll debounce is armed; nothing is buffered yet; the snapshot send and its cooldown flag are untouched |
| TelemetrySpec.ScrollDebounceFires | app/context/traking-context.tsx:446-448 | an armed debounce appends one `scroll` event carrying the current watermark; an unarmed one changes nothing; the snapshot send and its cooldown flag are untouched |
| TelemetrySpec.HandleClick | app/context/traking-context.tsx:452-455 | the click count grows by one, then one `click` event carrying the new count is appended; the snapshot send and its cooldown flag are untouched |
| TelemetrySpec.HandleMouseMove | app/context/traking-context.tsx:459-467 | the movement count grows by one and the debounce is armed; the buffer is unchanged; the snapshot send and its cooldown flag are untouched |
| TelemetrySpec.MouseDebounceFires | app/context/traking-context.tsx:462-466 | an event (typed `scroll`) carrying the count is appended exactly when the debounce was armed and the count is a multiple of 10; the count is unchanged; the snapshot send and its cooldown flag are untouched |
| TelemetrySpec.HandleLoad | app/context/traking-context.tsx:482-487 | with navigation timing, one `page_view` event carrying the load time is appended; without it nothing changes; the snapshot send and its cooldown flag are untouched |
| TelemetrySpec.TakeSnapshot | app/context/traking-context.tsx:145-196 | the snapshot carries both identifiers, the session start, the reported (lazily finalised) active time, the last activity time, the page-view, click and mouse-movement counters, the scroll watermark, the given IP address and the clock reading |
| TelemetrySpec.RefreshTick | app/context/traking-context.tsx:500-503 | the 30 s refresh publishes a fresh snapshot and transmits and logs nothing; the snapshot send and its cooldown flag are untouched |
| TelemetrySpec.ConfigError | app/context/traking-context.tsx:218-232 | the settings pass exactly when all three are configured; a missing endpoint is reported first, then the token, then the pixel id; a request failure is never a settings error |
| TelemetrySpec.BeginSendTracking | app/context/traking-context.tsx:199-216 | while a send is in flight the call changes nothing; otherwise both flags are raised, one cooldown reset is scheduled and the current buffer is captured; nothing is transmitted |
| TelemetrySpec.PostSendTracking | app/context/traking-context.tsx:216-257 | when the IP lookup resolves: a missing setting transmits nothing, logs one `trackingData` record with a snapshot taken now when storage accepts it, and clears `isSending`; otherwise exactly one payload with the snapshot taken now and the captured events is posted, nothing is logged, and the send stays in flight awaiting the reply |
| TelemetrySpec.FallbackRecord | app/context/traking-context.tsx:261-272 | the fallback record holds a snapshot taken at the failure, the captured events and the clock |
| TelemetrySpec.ReplySendTracking | app/context/traking-context.tsx:241-257 | when the reply arrives, `isSending` is cleared and nothing more is transmitted; an acceptance logs nothing; a rejection appends one `trackingData` record when storage accepts it |
| TelemetrySpec.PostOutcome | app/context/traking-context.tsx:218-246 | the resolved lookup posts exactly when every setting is configured, and otherwise raises the first missing setting |
| TelemetrySpec.ReplyOutcome | app/context/traking-context.tsx:241-254 | the send is delivered exactly when the collector accepts, and otherwise raises a request failure |
| TelemetrySpec.AppendIf | app/context/traking-context.tsx:264-271 | a successful write-back appends exactly the record and keeps earlier records; a failed one leaves the log as it was |
| TelemetrySpec.CooldownResetFires | app/context/traking-context.tsx:211-214 | the 5 s timeout clears the cooldown flag and consumes one scheduled reset |
| TelemetrySpec.Beacon | app/context/traking-context.tsx:297-304 | the beacon carries both identifiers and the clock; `page_id` equals `pixel_id`; a missing token or pixel id is sent as null, and a configured one is sent as configured |
| TelemetrySpec.InitOutcome | app/context/traking-context.tsx:279-320 | every call after the first is skipped; the first raises for a missing endpoint, else delivers exactly when the collector accepts, else raises |
| TelemetrySpec.SendInitTracking | app/context/traking-context.tsx:279-349 | the flag is set on the first call; a later call changes nothing; the beacon is transmitted once when the endpoint is configured; a raised call appends one `initTrackingData` record when storage accepts it |
| TelemetrySpec.Mount | app/context/traking-context.tsx:405-417 | the mount effect runs once: afterwards the provider is initialised and the init beacon has been attempted |
| TelemetrySpec.HandleBeforeUnload | app/context/traking-context.tsx:470-479 | the timer is stopped first; a send starts exactly when no send is in flight and the cooldown flag is down; nothing is transmitted synchronously |
| TelemetrySpec.Cleanup | app/context/traking-context.tsx:517-523 | the same guarded send without stopping the timer |
| TelemetryInvariant.StampedAppend | app/context/traking-context.tsx:352-360 | an appended event keeps the buffer stamped with the visit exactly when it carries the visit id |
| TelemetryInvariant.StartTimerKeeps | app/context/traking-context.tsx:383-388 | starting the timer keeps the invariant and moves the session forward |
| TelemetryInvariant.StopTimerKeeps | app/context/traking-context.tsx:390-395 | stopping the timer keeps the invariant and moves the session forward |
| TelemetryInvariant.AddEventKeeps | app/context/traking-context.tsx:352-360 | appending an event keeps every buffered event stamped with the visit |
| TelemetryInvariant.HandleFocusKeeps | app/context/traking-context.tsx:423-426 | a focus keeps the invariant |
| TelemetryInvariant.HandleBlurKeeps | app/context/traking-context.tsx:428-431 | a blur keeps the invariant |
| TelemetryInvariant.HandleScrollKeeps | app/context/traking-context.tsx:443-449 | a scroll keeps the invariant and never lowers the watermark |
| TelemetryInvariant.ScrollDebounceKeeps | app/context/traking-context.tsx:446-448 | the scroll debounce keeps the invariant |
| TelemetryInvariant.HandleClickKeeps | app/context/traking-context.tsx:452-455 | a click keeps the invariant and never lowers the count |
| TelemetryInvariant.MouseDebounceKeeps | app/context/traking-context.tsx:462-466 | the mouse debounce keeps the invariant |
| TelemetryInvariant.HandleLoadKeeps | app/context/traking-context.tsx:482-487 | the load signal keeps the invariant |
| TelemetryInvariant.RefreshKeeps | app/context/traking-context.tsx:500-503 | the refresh keeps the invariant |
| TelemetryInvariant.BeginSendKeeps | app/context/traking-context.tsx:199-216 | starting a send keeps the invariant; the cooldown flag is only raised with a reset pending |
| TelemetryInvariant.PostSendKeeps | app/context/traking-context.tsx:216-257 | the resolved IP lookup keeps the invariant: the posted payload or the logged record carries both identifiers and only events of the visit |
| TelemetryInvariant.PostedKeeps | app/context/traking-context.tsx:234-246 | posting the payload keeps the invariant |
| TelemetryInvariant.ReplyKeeps | app/context/traking-context.tsx:241-276 | the reply keeps the invariant, including a logged rejection |
| TelemetryInvariant.CooldownResetKeeps | app/context/traking-context.tsx:211-214 | the cooldown reset keeps the invariant |
| TelemetryInvariant.SendInitKeeps | app/context/traking-context.tsx:279-349 | the init beacon keeps the invariant: at most one beacon sent and one logged, and only once the flag is set |
| TelemetryInvariant.MountKeeps | app/context/traking-context.tsx:405-417 | mounting keeps the invariant and leaves the init flag set |
| TelemetryInvariant.BeforeUnloadKeeps | app/context/traking-context.tsx:470-479 | `beforeunload` keeps the invariant |
| TelemetryInvariant.CleanupKeeps | app/context/traking-context.tsx:517-523 | the cleanup keeps the invariant |
| TelemetryInvariant.InputKeeps | app/context/traking-context.tsx:423-487 | every page signal keeps the invariant |
| TelemetryInvariant.CallbackKeeps | app/context/traking-context.tsx:211-214 | every timer callback (cooldown reset, debounces, refresh) keeps the invariant |
| TelemetryInvariant.CallKeeps | app/context/traking-context.tsx:199-349 | every interface call, and each continuation of a send, keeps the invariant |
| TelemetryInvariant.LifecycleKeeps | app/context/traking-context.tsx:405-524 | mount, `beforeunload` and cleanup keep the invariant |
| TelemetryInvariant.StepKeeps | app/context/traking-context.tsx:405-524 | any single action keeps the invariant and moves the session forward |
| TelemetryInvariant.RunKeeps | app/context/traking-context.tsx:88-101 | any trace keeps the invariant; identifiers are fixed; buffer, outboxes and logs only grow; counters never fall; a set init flag freezes the beacon |
| TelemetryProperties.InvariantHolds | app/context/traking-context.tsx:88-101 | from a new provider, every trace reaches a state satisfying the invariant |
| TelemetryProperties.IdentifiersNeverChange | app/context/traking-context.tsx:88-93 | `visitUid`, `sessionId` and the start time never change |
| TelemetryProperties.ScrollDepthNeverDecreases | app/context/traking-context.tsx:398-403 | the scroll watermark never decreases over any trace |
| TelemetryProperties.EventsAppendOnly | app/context/traking-context.tsx:352-360 | over any trace the old buffer is a prefix of the new one, and every event carries the visit id |
| TelemetryProperties.FallbackLogsAppendOnly | app/context/traking-context.tsx:261-349 | over any trace both fallback logs keep their earlier records as a prefix |
| TelemetryProperties.InputHoldsSend | app/context/traking-context.tsx:423-487 | no page signal starts a send, and none ends an in-flight send or alters its stage, outbox or captured events |
| TelemetryProperties.InputHoldsCooldown | app/context/traking-context.tsx:423-487 | no page signal clears a raised cooldown flag |
| TelemetryProperties.CallbackHolds | app/context/traking-context.tsx:211-214 | no timer callback starts a send or alters an in-flight one, and only the cooldown timeout clears the cooldown flag |
| TelemetryProperties.CallHolds | app/context/traking-context.tsx:199-204 | a call other than the continuations of a send keeps an in-flight send as it is; no call clears the cooldown flag |
| TelemetryProperties.LifecycleHolds | app/context/traking-context.tsx:470-523 | mount and both teardown paths neither alter an in-flight send nor clear the cooldown flag |
| TelemetryProperties.InputKeepsActiveTime | app/context/traking-context.tsx:383-395 | no page signal changes the reported active time at the moment it happens |
| TelemetryProperties.CallbackKeepsActiveTime | app/context/traking-context.tsx:176 | no timer callback changes the reported active time |
| TelemetryProperties.CallKeepsActiveTime | app/context/traking-context.tsx:176 | no interface call changes the reported active time |
| TelemetryProperties.LifecycleKeepsActiveTime | app/context/traking-context.tsx:470-479 | stopping the timer on `beforeunload` keeps the reported active time |
| TelemetryProperties.StepHolds | app/context/traking-context.tsx:199-258 | any action other than the continuations of a send keeps an in-flight send; any other than the timeout keeps the cooldown flag; none changes the reported time |
| TelemetryProperties.InitFlagFreezesBeacon | app/context/traking-context.tsx:281-287 | once the init flag is set, no trace sends or logs another beacon |
| TelemetryProperties.InitBeaconAtMostOnce | app/context/traking-context.tsx:279-349 | over a whole session at most one beacon is transmitted and at most one is logged |
| TelemetryProperties.InitTwiceSendsOnce | app/context/traking-context.tsx:281-287 | a second call is skipped and exactly one beacon is transmitted, whatever the first reply was |
| TelemetryProperties.InFlightSendBlocksOthers | app/context/traking-context.tsx:199-258 | until an in-flight send advances, `isSending` stays set at the same stage, nothing more is transmitted and the captured events stay those of the first call |
| TelemetryProperties.PayloadFixedWhilePosted | app/context/traking-context.tsx:216-257 | once the payload is posted, no action other than the reply alters it or ends the send: the posted snapshot is the one taken when the IP lookup resolved |
| TelemetryProperties.BeginIsIdempotent | app/context/traking-context.tsx:199-204 | calling `sendTrackingData` twice in a row is the same as calling it once |
| TelemetryProperties.CooldownClearedOnlyByReset | app/context/traking-context.tsx:208-214 | a raised cooldown flag stays raised over any trace without the 5 s timeout |
| TelemetryProperties.TeardownSuppressedAfterSend | app/context/traking-context.tsx:470-523 | after a send, until a cooldown timeout fires (its own or an earlier send's), `beforeunload` only stops the timer and the cleanup changes nothing |
| TelemetryProperties.ReportedGrowsWithClock | app/context/traking-context.tsx:176 | for a fixed session a later read never reports less active time |
| TelemetryProperties.ActiveTimeNeverDecreases | app/context/traking-context.tsx:176 | with a non-decreasing clock, the reported active time never decreases across any trace |
| TelemetryProperties.ActiveTimeExample | app/context/traking-context.tsx:433-439 | hidden from 10 s to 15 s and visible again: at 20 s the session reports 15 s of activity |
| TelemetryProperties.MoveMouseCounts | app/context/traking-context.tsx:459-461 | `k` movements add `k` to the count, buffer nothing and leave the debounce armed |
| TelemetryProperties.BurstThenQuiet | app/context/traking-context.tsx:459-466 | a burst of movements followed by a quiet second buffers one event exactly when the final count is a multiple of 10 |
| TelemetryProperties.TenMovesOneEvent | app/context/traking-context.tsx:459-466 | ten movements from a fresh count, then a quiet second, buffer exactly one event carrying 10 |
| TelemetryProperties.SpacedMove | app/context/traking-context.tsx:459-466 | one movement followed by a quiet second buffers an event exactly when the new count is a multiple of 10 |
| TelemetryProperties.SpacedMovesCount | app/context/traking-context.tsx:459-466 | spaced-out movements buffer one event per multiple of 10 the count passes |
| TelemetryProperties.TenSpacedMovesOneEvent | app/context/traking-context.tsx:459-466 | ten spaced-out movements from a fresh count buffer exactly one event |
| TelemetryProperties.EarlierResetClearsLaterCooldown | app/context/traking-context.tsx:207-214 | with an earlier send's reset still pending, a send that completes is followed, when that earlier reset fires, by a teardown that starts a new send, while the later send's own reset is still pending |
| TelemetryProperties.HandleBeforeUnloadAsWritten | app/context/traking-context.tsx:470-479 | as written, `beforeunload` starts a send on the same guard as the corrected handler and differs from it only in the captured list, which is `[]` |
| TelemetryProperties.CleanupAsWritten | app/context/traking-context.tsx:517-523 | as written, the cleanup starts a send on the same guard as the corrected cleanup and differs from it only in the captured list, which is `[]` |
| TelemetryProperties.TeardownDropsEventsAsWritten | app/context/traking-context.tsx:470-523 | as the provider is written, both `beforeunload` and the cleanup start a send whose event list is empty, whatever was buffered |
| TelemetryProperties.TeardownShipsBufferedEvents | app/context/traking-context.tsx:470-523 | in the model both teardown paths ship exactly the events buffered so far |
| TelemetrySession.TrackingSession.constructor | app/context/traking-context.tsx:84-101 | the fields hold `NewSession` for the given identifiers and clock, and the invariant holds |
| TelemetrySession.TrackingSession.GetSessionId | app/context/traking-context.tsx:368-370 | returns the session id, which is never empty |
| TelemetrySession.TrackingSession.GetVisitUid | app/context/traking-context.tsx:373-375 | returns the visit id, which is never empty |
| TelemetrySession.TrackingSession.GetEvents | app/context/traking-context.tsx:378-380 | returns the buffer, and every returned event belongs to this visit |
| TelemetrySession.TrackingSession.ActiveTime | app/context/traking-context.tsx:176 | the lazy read equals `ReportedActiveTime` and changes nothing |
| TelemetrySession.TrackingSession.GetTrackingData | app/context/traking-context.tsx:145-196 | the snapshot equals `TakeSnapshot` and carries both identifiers |
| TelemetrySession.TrackingSession.StartTimer | app/context/traking-context.tsx:383-388 | new state is `StartTimer` of the old |
| TelemetrySession.TrackingSession.StopTimer | app/context/traking-context.tsx:390-395 | new state is `StopTimer` of the old |
| TelemetrySession.TrackingSession.AddEvent | app/context/traking-context.tsx:352-360 | new state is `AddEvent` of the old |
| TelemetrySession.TrackingSession.UpdateScrollDepth | app/context/traking-context.tsx:398-403 | new state is `UpdateScrollDepth` of the old |
| TelemetrySession.TrackingSession.IncrementPageViews | app/context/traking-context.tsx:363-365 | new state is `IncrementPageViews` of the old |
| TelemetrySession.TrackingSession.HandleFocus | app/context/traking-context.tsx:423-426 | new state is `HandleFocus` of the old |
| TelemetrySession.TrackingSession.HandleBlur | app/context/traking-context.tsx:428-431 | new state is `HandleBlur` of the old |
| TelemetrySession.TrackingSession.HandleVisibilityChange | app/context/traking-context.tsx:433-439 | new state is `HandleVisibilityChange` of the old |
| TelemetrySession.TrackingSession.HandleScroll | app/context/traking-context.tsx:443-449 | new state is `HandleScroll` of the old |
| TelemetrySession.TrackingSession.ScrollDebounceFires | app/context/traking-context.tsx:446-448 | new state is `ScrollDebounceFires` of the old |
| TelemetrySession.TrackingSession.HandleClick | app/context/traking-context.tsx:452-455 | new state is `HandleClick` of the old |
| TelemetrySession.TrackingSession.HandleMouseMove | app/context/traking-context.tsx:459-467 | new state is `HandleMouseMove` of the old |
| TelemetrySession.TrackingSession.MouseDebounceFires | app/context/traking-context.tsx:462-466 | new state is `MouseDebounceFires` of the old |
| TelemetrySession.TrackingSession.HandleLoad | app/context/traking-context.tsx:482-487 | new state is `HandleLoad` of the old |
| TelemetrySession.TrackingSession.RefreshTick | app/context/traking-context.tsx:500-503 | new state is `RefreshTick` of the old |
| TelemetrySession.TrackingSession.MarkSending | app/context/traking-context.tsx:207-208 | raises `isSending` and the cooldown flag and changes nothing else |
| TelemetrySession.TrackingSession.ScheduleCooldownReset | app/context/traking-context.tsx:211-214 | schedules one more cooldown reset and changes nothing else |
| TelemetrySession.TrackingSession.SendTrackingData | app/context/traking-context.tsx:199-216 | new state is `BeginSendTracking` of the old; returns Skipped exactly when a send was in flight |
| TelemetrySession.TrackingSession.SaveToLocalStorage | app/context/traking-context.tsx:261-276 | the `trackingData` log becomes `AppendIf` of the record; nothing else changes |
| TelemetrySession.TrackingSession.PostPayload | app/context/traking-context.tsx:241-246 | the payload is appended to the outbox and the send awaits the reply; nothing else changes |
| TelemetrySession.TrackingSession.PostTrackingData | app/context/traking-context.tsx:216-257 | new state is `PostSendTracking` of the old; result is `PostOutcome`; keeps `Valid()` |
| TelemetrySession.TrackingSession.ReplyTrackingData | app/context/traking-context.tsx:241-257 | new state is `ReplySendTracking` of the old; result is `ReplyOutcome`; keeps `Valid()` |
| TelemetrySession.TrackingSession.CooldownResetFires | app/context/traking-context.tsx:211-214 | new state is `CooldownResetFires` of the old |
| TelemetrySession.TrackingSession.PostInit | app/context/traking-context.tsx:289-311 | a missing endpoint raises and transmits nothing; otherwise the beacon is appended to the outbox and the reply decides the result |
| TelemetrySession.TrackingSession.SaveInitToLocalStorage | app/context/traking-context.tsx:324-349 | the `initTrackingData` log becomes `AppendIf` of the record; nothing else changes |
| TelemetrySession.TrackingSession.AttemptInit | app/context/traking-context.tsx:286-320 | the first call: new state is `SendInitTracking` of the old and result is `InitOutcome` |
| TelemetrySession.TrackingSession.AttemptInitOnce | app/context/traking-context.tsx:279-321 | new state is `SendInitTracking` of the old and result is `InitOutcome`, with no invariant required |
| TelemetrySession.TrackingSession.SendInitTracking | app/context/traking-context.tsx:279-321 | new state is `SendInitTracking` of the old; result is `InitOutcome`; keeps `Valid()` |
| TelemetrySession.TrackingSession.Mount | app/context/traking-context.tsx:405-417 | new state is `Mount` of the old |
| TelemetrySession.TrackingSession.HandleBeforeUnload | app/context/traking-context.tsx:470-479 | new state is `HandleBeforeUnload` of the old |
| TelemetrySession.TrackingSession.Cleanup | app/context/traking-context.tsx:517-523 | new state is `Cleanup` of the old |
| Carousel.NextIndex | components/image-slider.tsx:56 | the next step stays below the step count, wrapping from the last step to the first |
| Carousel.PrevIndex | components/image-slider.tsx:63 | the previous step stays below the step count, wrapping from the first step to the last |
| Carousel.RegistrationStepsWrap | components/image-slider.tsx:26-65 | on the three registration steps, next from the last shows the first, prev from the first shows the last, and next never stays put |
| Carousel.PrevAfterNext | components/image-slider.tsx:53-65 | a prev after a next restores the original step |
| Carousel.NextAfterPrev | components/image-slider.tsx:53-65 | a next after a prev restores the original step |
| Carousel.Advance | components/image-slider.tsx:67-72 | the step after `k` auto-advances stays below the step count |
| Carousel.AdvanceIsRotation | components/image-slider.tsx:67-72 | `k` auto-advances from step `i` show step `(i + k) mod n` |
| Carousel.StepsSlider.constructor | components/image-slider.tsx:50-51 | the first step is shown and nothing is animating |
| Carousel.StepsSlider.NextSlide | components/image-slider.tsx:53-58 | while animating nothing changes; otherwise the index becomes `NextIndex` and the lock is taken |
| Carousel.StepsSlider.PrevSlide | components/image-slider.tsx:60-65 | while animating nothing changes; otherwise the index becomes `PrevIndex` and the lock is taken |
| Carousel.StepsSlider.GoToSlide | components/image-slider.tsx:128-133 | while animating nothing changes; otherwise the index becomes `k` and the lock is taken |
| Carousel.StepsSlider.AnimationEnds | components/image-slider.tsx:57 | the 500 ms timeout releases the lock and keeps the index |
| Carousel.StepsSlider.AutoAdvanceTick | components/image-slider.tsx:67-72 | the 7 s tick behaves exactly as `NextSlide` |
| Carousel.NextThenPrev | components/image-slider.tsx:53-65 | next, the animation ending, then prev leaves the carousel on the step it showed before |

## Left out

- Network calls are not modelled as I/O. The IP lookup is an `Option<string>` input. Each POST is an outbox append plus a `Reply` input. The response body that `sendTrackingData` returns is not modelled; a delivered send returns `Delivered`.
- Local-storage JSON serialisation is not modelled, nor a stored value that fails to parse. Each log is a sequence of records, and a failed write is the `storageWritable` input.
- Identifier generation (`Date.now` and `Math.random`) is not modelled. The identifiers are inputs, and the model proves they never change.
- Browser and device fields of the snapshot are not modelled: user agent, language, screen, viewport, connection, timezone, referrer, URL and the device regexes. The navigation-timing read is the `Option<int>` load-time input.
- The scroll percentage is a `real` input. The floating-point division that computes it, including NaN on a page that cannot scroll, is not modelled.
- SaveToLocalStorage: the source's fallback takes a second snapshot (a second IP lookup) asynchronously, outside its own `try`. The model takes that snapshot, with its own `ipAddress` input, at the moment of the failure: when the lookup resolves for a missing setting, when the reply arrives for a rejection. It writes the record then.
- SaveInitToLocalStorage: `created_at` is an ISO date string in the source and the clock reading in the model.
- SendInitTracking: the model makes the whole call one operation, so a rejected beacon's record reuses the posted beacon and its `now`. The source rebuilds the record when the reply arrives, with a fresh `Date.now()` for `timestamp` and `created_at`. Anything between the POST and its reply is not modelled for the init beacon.
- The mount-time `getTrackingData().then(setTrackingData)` is the same as a `Refresh` action and is not a separate operation.
- `console` logging, listener registration and removal, clearing the refresh interval, and React rendering are not modelled. A timer callback that can no longer fire is just never applied.
- A second mount under React strict mode is not modelled; `isInitialized` makes it a no-op.
- The stale `events` closure is modelled only for the teardown finding below. Elsewhere the model captures the current buffer.
- The presentational components, the canvas background, the form-filling script and the mobile hook are not modelled.
- Eight internal stages of `TelemetrySession.TrackingSession` carry no `Valid()` and can leave it false on their own. `MarkSending`, for example, raises the cooldown flag before a reset is scheduled, and two `PostInit` calls post two beacons. The eight are:
  - MarkSending, ScheduleCooldownReset and PostPayload;
  - SaveToLocalStorage and SaveInitToLocalStorage;
  - PostInit, AttemptInit and AttemptInitOnce.

  Each states only its effect on the fields. Every other state-changing method requires and ensures `Valid()`.
- The mouse-movement event is typed `scroll`, exactly as the source types it.

## Findings

| source | as written | input that shows it | evidently intended | confidence | as-written member | corrected member |
|---|---|---|---|---|---|---|
| app/context/traking-context.tsx:470-479 | the `beforeunload` and cleanup handlers, registered once on mount, call the first render's `sendTrackingData`, whose `events` is the initial empty list, so a teardown send ships `events: []` | a click, then leaving the page with the cooldown flag down: the click event is buffered but the payload's event list is empty | the teardown send ships the events buffered so far | high, not executed | TelemetryProperties.TeardownDropsEventsAsWritten | TelemetryProperties.TeardownShipsBufferedEvents |
