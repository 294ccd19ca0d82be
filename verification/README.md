# Content share in the Amazon Chime Android SDK, modelled in Dafny

Content share lets an app send a second, send-only video stream (typically the
screen) into a meeting. That stream joins as a separate participant, whose join
token carries the `#content` modality tag. This project models the Kotlin
classes that make up content share. Each class becomes a pure state machine
whose collaborator calls and observer notifications are appended, in order,
to an action log.

The modules are:

- `Modalities` covers `DefaultModality`. It parses `base#modality`
  identifiers, using Kotlin's `split("#")`, which keeps empty segments.
- `StatusCodes` covers `ContentShareStatusCode` and `ContentShareStatus`. It
  also maps a meeting-session status to a content-share status code.
- `ObserverRegistry` covers the insertion-ordered observer sets
  (`mutableSetOf`) and the "notify every observer" fan-out.
- `Turn` covers the TURN-credential update sent to the video client after a
  credential request.
- `Collaborators` holds the action log vocabulary and the `startServiceV3`
  flag word.
- `VideoClientObserver` covers `DefaultContentShareVideoClientObserver`. It
  turns the native client's callbacks into notifications and answers TURN
  requests.
- `VideoClientController` covers `DefaultContentShareVideoClientController`.
  It owns its EGL core and video client directly.
- `ContentShareController` covers `DefaultContentShareController`. It
  delegates the client's lifecycle to a `VideoClientStateController` and
  reacts to audio/video session callbacks.

Some objects come from factories: EGL cores and video clients. Each one is
identified by a handle taken from a counter kept in the state. Each
controller's validity invariant includes that every handle it holds, and
every handle named in its log, lies below that counter. So each creation
yields a handle never seen before. A
Kotlin `null` is modelled as `Option.None`. Each controller has a `Run`
function that folds a sequence of public operations and callbacks.
Invariants proved for one step are lifted by induction to every sequence.

`DefaultContentShareController` hands the video client's lifecycle to a
`VideoClientStateController`, which calls back into it
(`initializeVideoClient`, `startVideoClient`, `stopVideoClient`,
`destroyVideoClient`). The state controller may make these callbacks inside
its own `start` or `stop`, before control returns to `startContentShare` or
`stopContentShare`. So the start and stop steps take the callbacks made
during the state controller's `start` and `stop` as inputs. An empty
sequence models a state controller that makes them later, as separate
operations. In particular, `startContentShare` hands the source to whichever
client is held once `start` has returned. On a first share, that is the
client the callbacks just created.

## Model

Source paths are relative to the repository root. Elsewhere in this file,
`VCC` stands for `DefaultContentShareVideoClientController.kt` and `DCSC`
for `DefaultContentShareController.kt`.

| member | source | states |
|---|---|---|
| Modalities.Split | amazon-chime-sdk/src/main/java/com/amazonaws/services/chime/sdk/meetings/utils/DefaultModality.kt:19-32 | `split("#")` returns one more segment than there are separators. No segment contains `#`. The first segment is the prefix of the string up to its first separator. |
| Modalities.JoinSplit | amazon-chime-sdk/src/main/java/com/amazonaws/services/chime/sdk/meetings/utils/DefaultModality.kt:19-32 | Re-joining the segments of a split with `#` gives back the original string. Nothing is lost, including empty segments. |
| Modalities.SplitJoin | amazon-chime-sdk/src/main/java/com/amazonaws/services/chime/sdk/meetings/utils/DefaultModality.kt:19-32 | Joining separator-free segments and splitting again returns exactly those segments. So split and join are inverse bijections. |
| Modalities.Base | amazon-chime-sdk/src/main/java/com/amazonaws/services/chime/sdk/meetings/utils/DefaultModality.kt:19-24 | `base()` is a separator-free prefix of the id. Either it is the whole id, or the next character is `#`. |
| Modalities.Modality | amazon-chime-sdk/src/main/java/com/amazonaws/services/chime/sdk/meetings/utils/DefaultModality.kt:26-32 | `modality()` contains no `#`. It is empty unless the id has exactly one separator, in which case the id is `base + "#" + modality`. |
| Modalities.IdIsConstructorArgument | amazon-chime-sdk/src/main/java/com/amazonaws/services/chime/sdk/meetings/utils/DefaultModality.kt:8-17 | `id()` returns the string the object was built from. |
| Modalities.EmptyId | amazon-chime-sdk/src/main/java/com/amazonaws/services/chime/sdk/meetings/utils/DefaultModality.kt:19-36 | The empty id has an empty base, no modality, and not the content modality. |
| Modalities.UntaggedId | amazon-chime-sdk/src/main/java/com/amazonaws/services/chime/sdk/meetings/utils/DefaultModality.kt:19-32 | An id without `#` is entirely base and has no modality. |
| Modalities.TaggedId | amazon-chime-sdk/src/main/java/com/amazonaws/services/chime/sdk/meetings/utils/DefaultModality.kt:19-32 | `a#b` with separator-free `a` and `b` parses back to base `a` and modality `b`. Either part may be empty. |
| Modalities.MultiplyTaggedId | amazon-chime-sdk/src/main/java/com/amazonaws/services/chime/sdk/meetings/utils/DefaultModality.kt:26-32 | With two or more separators there is no modality. The base is still the strict prefix before the first `#`. |
| Modalities.HasModalityIff | amazon-chime-sdk/src/main/java/com/amazonaws/services/chime/sdk/meetings/utils/DefaultModality.kt:34-36 | `hasModality("")` is always false. For a non-empty tag, `hasModality` holds exactly when the id is its base, one `#`, and that tag. |
| Modalities.ContentTagRoundTrip | amazon-chime-sdk/src/main/java/com/amazonaws/services/chime/sdk/meetings/utils/DefaultModality.kt:11-36 | Tagging a separator-free base with `#content` gives an id whose base is that base and which has the content modality. |
| StatusCodes.TwoCodes | amazon-chime-sdk/src/main/java/com/amazonaws/services/chime/sdk/meetings/audiovideo/contentshare/ContentShareStatusCode.kt:11-20 | There are exactly two status codes, and they differ. |
| StatusCodes.Classification | amazon-chime-sdk/src/main/java/com/amazonaws/services/chime/sdk/meetings/audiovideo/contentshare/ContentShareStatusCode.kt:22-27 | `OK` is neither failed nor terminal. `VideoServiceFailed` is both. On every code, `isFailed` and `isTerminal` agree. |
| StatusCodes.StoppedStatus | amazon-chime-sdk/src/main/java/com/amazonaws/services/chime/sdk/meetings/audiovideo/contentshare/DefaultContentShareController.kt:219-231 | A stopped video session is reported as `OK` exactly when the session status is `OK`. Otherwise it is reported as a failed code. |
| ObserverRegistry.Add | amazon-chime-sdk/src/main/java/com/amazonaws/services/chime/sdk/meetings/internal/contentshare/DefaultContentShareVideoClientObserver.kt:33-35 | After `add(o)`, the members are the old members plus `o`. Adding a present member changes nothing. Existing order is kept, and the set stays duplicate-free. |
| ObserverRegistry.Remove | amazon-chime-sdk/src/main/java/com/amazonaws/services/chime/sdk/meetings/internal/contentshare/DefaultContentShareVideoClientObserver.kt:37-39 | After `remove(o)`, the members are the old members minus `o`. Removing an absent observer changes nothing. Removing a present one shrinks the set by one, and the set stays duplicate-free. |
| ObserverRegistry.NotifyAll | amazon-chime-sdk/src/main/java/com/amazonaws/services/chime/sdk/meetings/internal/contentshare/DefaultContentShareVideoClientObserver.kt:47-49 | Notifying the set makes one delivery per member, in set order, each carrying the event. |
| ObserverRegistry.NotifyAllOnce | amazon-chime-sdk/src/main/java/com/amazonaws/services/chime/sdk/meetings/internal/contentshare/DefaultContentShareVideoClientObserver.kt:29-49 | Each subscriber receives the event exactly once. A non-subscriber receives it zero times, and no other event is delivered. |
| ObserverRegistry.AddIdempotent | amazon-chime-sdk/src/main/java/com/amazonaws/services/chime/sdk/meetings/audiovideo/contentshare/DefaultContentShareController.kt:175-177 | Adding an observer twice is the same as adding it once. |
| ObserverRegistry.RemoveUndoesAdd | amazon-chime-sdk/src/main/java/com/amazonaws/services/chime/sdk/meetings/audiovideo/contentshare/DefaultContentShareController.kt:175-181 | Adding a new observer and then removing it restores the previous set. |
| Turn.RewriteUris | amazon-chime-sdk/src/main/java/com/amazonaws/services/chime/sdk/meetings/internal/contentshare/DefaultContentShareVideoClientObserver.kt:81-85 | The rewritten URI list has the same length. Null entries stay null, and each non-null URI is replaced by the rewriter's output for it. |
| Turn.TurnUpdateFor | amazon-chime-sdk/src/main/java/com/amazonaws/services/chime/sdk/meetings/internal/contentshare/DefaultContentShareVideoClientObserver.kt:78-103 | The update is "feature on" exactly when there is a response and the client is active. It then carries the response's username, password, ttl, rewritten URIs and the configured signaling URL. Otherwise it is the all-null "CCP failure" update. |
| Collaborators.ContentShareFlagBits | amazon-chime-sdk/src/main/java/com/amazonaws/services/chime/sdk/meetings/internal/contentshare/DefaultContentShareVideoClientController.kt:37-39 | The flag word passed to `startServiceV3` has exactly bits 6, 12 and 20 set. |
| VideoClientObserver.Subscribe | amazon-chime-sdk/src/main/java/com/amazonaws/services/chime/sdk/meetings/internal/contentshare/DefaultContentShareVideoClientObserver.kt:33-35 | After subscribing, the subscribers are the old ones plus the observer. Subscribing a present observer changes nothing. Nothing is called or notified, and the set stays duplicate-free. |
| VideoClientObserver.Unsubscribe | amazon-chime-sdk/src/main/java/com/amazonaws/services/chime/sdk/meetings/internal/contentshare/DefaultContentShareVideoClientObserver.kt:37-39 | After unsubscribing, the subscribers are the old ones minus the observer. Unsubscribing an absent observer changes nothing. Nothing is called or notified. |
| VideoClientObserver.Broadcast | amazon-chime-sdk/src/main/java/com/amazonaws/services/chime/sdk/meetings/internal/contentshare/DefaultContentShareVideoClientObserver.kt:47-49 | A broadcast appends exactly one log entry per subscriber. Read back, those entries are the event delivered to every subscriber in set order. |
| VideoClientObserver.CallbackNotifications | amazon-chime-sdk/src/main/java/com/amazonaws/services/chime/sdk/meetings/internal/contentshare/DefaultContentShareVideoClientObserver.kt:45-72 | `didConnect`, `didFail` and `didStop` each deliver exactly one batch: "started", "stopped(VideoServiceFailed)" and "stopped(OK)" respectively. Each subscriber gets it once, and nothing else happens. |
| VideoClientObserver.IsConnectingSilent | amazon-chime-sdk/src/main/java/com/amazonaws/services/chime/sdk/meetings/internal/contentshare/DefaultContentShareVideoClientObserver.kt:41-43 | `isConnecting` changes nothing and notifies nobody. |
| VideoClientObserver.RequestTurnCredsEffect | amazon-chime-sdk/src/main/java/com/amazonaws/services/chime/sdk/meetings/internal/contentshare/DefaultContentShareVideoClientObserver.kt:74-106 | A TURN request for a null client does nothing. For a present client, exactly one `updateTurnCredentials` goes to that client. It is "feature on" with the response data exactly when there is a response and the client is active, and the all-null CCP-failure update otherwise. |
| VideoClientObserver.DuplicateSubscribeNotifiesOnce | amazon-chime-sdk/src/main/java/com/amazonaws/services/chime/sdk/meetings/internal/contentshare/DefaultContentShareVideoClientObserver.kt:29-50 | An observer subscribed twice still hears each "started" only once. |
| VideoClientController.Init | amazon-chime-sdk/src/main/java/com/amazonaws/services/chime/sdk/meetings/internal/contentshare/DefaultContentShareVideoClientController.kt:29-33 | A new controller is valid, not sharing, with no observers and an empty log. |
| VideoClientController.StopVideoSharingEffect | amazon-chime-sdk/src/main/java/com/amazonaws/services/chime/sdk/meetings/internal/contentshare/DefaultContentShareVideoClientController.kt:120-129 | Afterwards there is no client, no EGL core and no sharing. The held client is stopped then destroyed, and then the EGL core is released. Nothing else is called and nobody is notified. |
| VideoClientController.StopValid | amazon-chime-sdk/src/main/java/com/amazonaws/services/chime/sdk/meetings/internal/contentshare/DefaultContentShareVideoClientController.kt:120-129 | A stop keeps the controller valid: no client, no EGL core, not sharing, and the log invariants intact. |
| VideoClientController.StopIdempotent | amazon-chime-sdk/src/main/java/com/amazonaws/services/chime/sdk/meetings/internal/contentshare/DefaultContentShareVideoClientController.kt:120-129 | Stopping twice is the same as stopping once. Stopping while not sharing changes nothing. |
| VideoClientController.StartVideoSharingEffect | amazon-chime-sdk/src/main/java/com/amazonaws/services/chime/sdk/meetings/internal/contentshare/DefaultContentShareVideoClientController.kt:41-67 | Afterwards the controller shares `v` through a new EGL core and a new client, whose handles no earlier log entry names, and stays valid. That client is started with the content-share flags and the configured meeting id and join token, then given the source and set sending. Each subscriber hears "started" exactly once. The appended log is exactly: the stop's calls when it was sharing, then EGL core creation, client creation, `setReceiving(false)`, `startServiceV3`, `setExternalVideoSource`, `setSending(true)`, in that order, then the notifications. |
| VideoClientController.StartCallsIssued | amazon-chime-sdk/src/main/java/com/amazonaws/services/chime/sdk/meetings/internal/contentshare/DefaultContentShareVideoClientController.kt:56-62 | A start calls `startServiceV3`, `setExternalVideoSource` and `setSending(true)` on the new client, with the EGL core's context. |
| VideoClientController.StartServiceCall | amazon-chime-sdk/src/main/java/com/amazonaws/services/chime/sdk/meetings/internal/contentshare/DefaultContentShareVideoClientController.kt:101-118 | Within a start, `startVideoClient` issues `startServiceV3` to the new client right after its `setReceiving(false)`. The call carries the configured meeting id and join token, the EGL core's context, and a flag word whose set bits are exactly 6, 12 and 20. |
| VideoClientController.RestartStopsFirst | amazon-chime-sdk/src/main/java/com/amazonaws/services/chime/sdk/meetings/internal/contentshare/DefaultContentShareVideoClientController.kt:41-56 | Starting while sharing stops and destroys the old client and releases the old EGL core. All of this happens before the new EGL core and the new client are created, and their handles differ from the old ones. |
| VideoClientController.FirstStartCreatesEglFirst | amazon-chime-sdk/src/main/java/com/amazonaws/services/chime/sdk/meetings/internal/contentshare/DefaultContentShareVideoClientController.kt:41-77 | A start while not sharing first creates the EGL core, then the client, and immediately makes that client send-only. It issues no stop or destroy. |
| VideoClientController.StartedDeliveredTwice | amazon-chime-sdk/src/main/java/com/amazonaws/services/chime/sdk/meetings/internal/contentshare/DefaultContentShareVideoClientController.kt:63-65 | An observer subscribed through this controller is in both subscriber sets. So one share announces "started" to it twice: once from `startVideoSharing` and once from the client's `didConnect`. |
| VideoClientController.SubscriptionEffect | amazon-chime-sdk/src/main/java/com/amazonaws/services/chime/sdk/meetings/internal/contentshare/DefaultContentShareVideoClientController.kt:131-139 | Subscribing adds the observer both here and in the client observer, and unsubscribing removes it from both. Neither touches the client, the EGL core or the log. |
| VideoClientController.StepValid | amazon-chime-sdk/src/main/java/com/amazonaws/services/chime/sdk/meetings/internal/contentshare/DefaultContentShareVideoClientController.kt:41-139 | Every public operation keeps the controller valid, including the bound that keeps every held or logged handle below the counter. |
| VideoClientController.RunValid | amazon-chime-sdk/src/main/java/com/amazonaws/services/chime/sdk/meetings/internal/contentshare/DefaultContentShareVideoClientController.kt:29-139 | These hold after any sequence of operations: sharing, an EGL core and a client are present together or absent together. Every client ever created was immediately made send-only, and every service start used the content-share flags, meeting id and join token. |
| ContentShareController.CreateContentShareMeetingSessionConfiguration | amazon-chime-sdk/src/main/java/com/amazonaws/services/chime/sdk/meetings/audiovideo/contentshare/DefaultContentShareController.kt:53-68 | The content configuration keeps the meeting id, attendee id, external user id and URLs. Its join token is the original followed by `#content`. |
| ContentShareController.ContentTokenParses | amazon-chime-sdk/src/main/java/com/amazonaws/services/chime/sdk/meetings/audiovideo/contentshare/DefaultContentShareController.kt:53-68 | For a separator-free join token, the tagged token's base is the original token, and it has the content modality. |
| ContentShareController.Init | amazon-chime-sdk/src/main/java/com/amazonaws/services/chime/sdk/meetings/audiovideo/contentshare/DefaultContentShareController.kt:71-74 | Construction binds the lifecycle handler and subscribes to the video-client observer, in that order. The new controller is valid and not sharing. |
| ContentShareController.CallbackEffect | amazon-chime-sdk/src/main/java/com/amazonaws/services/chime/sdk/meetings/audiovideo/contentshare/DefaultContentShareController.kt:106-143 | One lifecycle callback changes only the client and the handle counter, and appends only calls on the client or its factory. Initialize installs a client with the counter's next handle, destroy leaves none, and start and stop keep the client. When every held or logged handle is below the counter before the callback, that still holds after it. Every service start stays send-only and configured. |
| ContentShareController.CallbacksEffect | amazon-chime-sdk/src/main/java/com/amazonaws/services/chime/sdk/meetings/audiovideo/contentshare/DefaultContentShareController.kt:106-143 | A sequence of lifecycle callbacks touches only the client and appends only client calls. Without initialize or destroy, the client is the same one. With no callbacks, nothing changes. |
| ContentShareController.StopContentShareEffect | amazon-chime-sdk/src/main/java/com/amazonaws/services/chime/sdk/meetings/audiovideo/contentshare/DefaultContentShareController.kt:167-173 | Stop always calls the state controller's `stop` first. Only client calls from the callbacks made during `stop` follow, and then any EGL core is released. It ends not sharing and without a core and notifies nobody. The client changes only through initialize or destroy callbacks, and validity is kept. |
| ContentShareController.StartContentShareEffect | amazon-chime-sdk/src/main/java/com/amazonaws/services/chime/sdk/meetings/audiovideo/contentshare/DefaultContentShareController.kt:76-104 | A start with a source finishes any stop first. It ends sharing the source through an EGL core created in this step, whose handle no earlier log entry names. The calls are: the core's creation, the state controller's `start`, the client calls from callbacks made during `start`, then the source and `setSending(true)` to the client held at that point. Each subscriber then hears "started" exactly once, and the controller stays valid. |
| ContentShareController.FirstShareHandsOver | amazon-chime-sdk/src/main/java/com/amazonaws/services/chime/sdk/meetings/audiovideo/contentshare/DefaultContentShareController.kt:84-97 | On a first share where the state controller initializes and starts the client inside `start`, the exact log is: create the EGL core, `start`, create the client, `setReceiving(false)`, `startServiceV3`, then `setExternalVideoSource` and `setSending(true)` to that new client. |
| ContentShareController.StartOrder | amazon-chime-sdk/src/main/java/com/amazonaws/services/chime/sdk/meetings/audiovideo/contentshare/DefaultContentShareController.kt:79-97 | The order of a start's calls. If it was sharing, the complete stop comes first. Then come a freshly created EGL core, the state controller's `start` and only client calls. Then the source and `setSending(true)` go to the client held at that point, followed by the notifications. Without initialize or destroy callbacks, that client is the one held before. |
| ContentShareController.StartNotifications | amazon-chime-sdk/src/main/java/com/amazonaws/services/chime/sdk/meetings/audiovideo/contentshare/DefaultContentShareController.kt:78-100 | The only notifications of a start are one "started" batch to the current observers. This holds whatever callbacks the state controller makes. |
| ContentShareController.StartValid | amazon-chime-sdk/src/main/java/com/amazonaws/services/chime/sdk/meetings/audiovideo/contentshare/DefaultContentShareController.kt:76-104 | A start, with or without a source, keeps the controller valid. |
| ContentShareController.RestartStopsFirst | amazon-chime-sdk/src/main/java/com/amazonaws/services/chime/sdk/meetings/audiovideo/contentshare/DefaultContentShareController.kt:79-91 | Starting while sharing calls the state controller's `stop`. Only client calls follow until the old core is released. Only then does it create a new, different core and call the state controller's `start`. |
| ContentShareController.TwoStartsAnnounceNoStop | amazon-chime-sdk/src/main/java/com/amazonaws/services/chime/sdk/meetings/audiovideo/contentshare/DefaultContentShareController.kt:76-104 | `startContentShare` itself emits no "stopped" when it replaces a running share. Within two consecutive starts with sources, an observer hears "started" twice and "stopped" never. |
| ContentShareController.StartWithoutVideoSource | amazon-chime-sdk/src/main/java/com/amazonaws/services/chime/sdk/meetings/audiovideo/contentshare/DefaultContentShareController.kt:76-84 | A start without a source still stops a running share, but creates no core, never calls the state controller's `start`, and notifies nobody. When not sharing, it changes nothing. |
| ContentShareController.StartVideoClientEffect | amazon-chime-sdk/src/main/java/com/amazonaws/services/chime/sdk/meetings/audiovideo/contentshare/DefaultContentShareController.kt:113-132 | A held client is set send-only and then started with the content-share flags, meeting id, join token and EGL context. Without a client nothing happens. |
| ContentShareController.ClientLifecycleEffect | amazon-chime-sdk/src/main/java/com/amazonaws/services/chime/sdk/meetings/audiovideo/contentshare/DefaultContentShareController.kt:106-143 | `initializeVideoClient` installs a client with the counter's next handle. `stopVideoClient` stops a held client and keeps it. `destroyVideoClient` destroys a held client and leaves none. |
| ContentShareController.SessionEventEffect | amazon-chime-sdk/src/main/java/com/amazonaws/services/chime/sdk/meetings/audiovideo/contentshare/DefaultContentShareController.kt:183-231 | Only a stopped video session notifies. Each observer hears "stopped" once, with `OK` exactly when the session status is `OK`. All other callbacks change nothing. |
| ContentShareController.StepValid | amazon-chime-sdk/src/main/java/com/amazonaws/services/chime/sdk/meetings/audiovideo/contentshare/DefaultContentShareController.kt:76-181 | Every operation and callback, including starts and stops with any callbacks made during them, keeps sharing and holding an EGL core together, keeps every held or logged handle below the counter, and keeps the observers duplicate-free. |
| ContentShareController.StepSendOnly | amazon-chime-sdk/src/main/java/com/amazonaws/services/chime/sdk/meetings/audiovideo/contentshare/DefaultContentShareController.kt:113-132 | No operation or callback produces a service start that is not immediately preceded by `setReceiving(false)` on the same client, or that lacks the content-share flags and configured identity. |
| ContentShareController.RunValid | amazon-chime-sdk/src/main/java/com/amazonaws/services/chime/sdk/meetings/audiovideo/contentshare/DefaultContentShareController.kt:41-231 | From a valid state, after any sequence of operations and callbacks, the controller is valid and every service start is send-only and configured. |
| ContentShareController.InitRunValid | amazon-chime-sdk/src/main/java/com/amazonaws/services/chime/sdk/meetings/audiovideo/contentshare/DefaultContentShareController.kt:71-231 | The same holds for every run starting from construction. |

## Behaviour worth knowing

Each item is behaviour of the code that the model makes explicit.

- `createContentShareMeetingSessionConfiguration` tags only the join token
  with `#content` (DCSC lines 59-67). The attendee id and external user id
  are passed through unchanged.
- `DefaultContentShareController.stopContentShare` calls the state
  controller's `stop` even when nothing is shared (DCSC lines 167-173). So a
  stop while idle still makes a collaborator call
  (`StopContentShareEffect`).
- `stopContentShare` does not emit `onContentShareStopped` itself in either
  controller (DCSC lines 167-173, VCC lines 120-129). The interface documents
  that `onContentShareStopped(OK)` follows a successful stop
  (`amazon-chime-sdk/src/main/java/com/amazonaws/services/chime/sdk/meetings/audiovideo/contentshare/ContentShareController.kt` lines 28-33). That notification arrives later through
  the video session. DCSC subscribes itself to the video-client observer
  (DCSC line 73) and reports a stopped session in `onVideoSessionStopped`
  (DCSC lines 219-231). VCC relies on the native client's `didStop`.
  Likewise, when `startContentShare` replaces a running share, the step
  itself emits "started" and no "stopped" (`TwoStartsAnnounceNoStop`). Any
  "stopped" comes from the session callbacks, which the model lets a run
  interleave as separate operations.
- In `DefaultContentShareVideoClientController`, an observer subscribed
  through the controller is also in the client observer's subscriber set
  (VCC lines 131-139). `startVideoSharing` announces "started" to it (VCC
  lines 63-65), and so does the client observer's `didConnect`. One share
  therefore reaches it twice (`StartedDeliveredTwice`).

## Left out

- Threads and coroutines are not modelled. `startContentShare` and
  `requestTurnCreds` run their `launch` blocks on other dispatchers, and
  notifications are delivered on the main thread. Each operation is one
  atomic step, and notifications are recorded when they are posted.
- `VideoClientStateController` is not part of this model. Its `start` and
  `stop` are logged as calls. Which lifecycle callbacks it makes back into
  `DefaultContentShareController`, and whether it makes them inside `start`
  and `stop` or later, is an input to each step rather than derived from its
  internal states.
- `doTurnRequest` (HTTP, JSON, the auth header) is not part of this model.
  Its result is an input: an optional `TurnCredentials`.
- `initializeAppDetailedInfo` and `VideoClient.initializeGlobals` are left
  out. They only set process-wide native state from Android build and
  package data.
- Only the varying arguments of `startServiceV3` are recorded. Its constant
  arguments (two empty strings, `false`, `0`) are not.
- Logging, and the `result` of `startServiceV3`, which is only logged, are
  not modelled.
- The native video client's no-op callbacks are omitted: `onCameraChanged`,
  `onMetrics`, `cameraSendIsAvailable`, `didReceiveFrame` and
  `pauseRemoteVideo`. `getAvailableDnsServers` is omitted too; it returns an
  empty array.
- EGL internals are reduced to a handle: the context is the core's handle.
  The adapter's source is kept, and frame forwarding is not modelled.
- Factories are assumed to always return an object (never null), identified
  by the counter's next handle.
- `MeetingSessionStatusCode` is reduced to `OK` versus any other code, which
  is the only distinction content share makes.
- Meeting-session URLs are kept as plain string fields.
- TURN `ttl` and the URI entries are kept as opaque values; their contents
  are never inspected here.
- `DefaultScreenCaptureSource`, the demo app and `DeviceChangeObserver` are
  outside this model.
