/**
 * `DefaultContentShareController`: the content-share controller that
 * delegates the video client's lifecycle to a `VideoClientStateController`.
 * Starting while sharing first stops; a start with a video source ensures
 * an EGL core, asks the state controller to start, hands the source to the
 * current client and notifies observers. The state controller drives the
 * client through the lifecycle callbacks (`initializeVideoClient`,
 * `startVideoClient`, `stopVideoClient`, `destroyVideoClient`), either while
 * its own `start`/`stop` runs or later, and the video session reports back
 * through the audio/video observer callbacks.
 */
module ContentShareController {
  import opened Optional
  import opened StatusCodes
  import opened ObserverRegistry
  import opened Session
  import opened Collaborators
  import Modalities

  /** `CONTENT_MODALITY`: the suffix that turns a join token into the content-share token. */
  const ContentModality: string := "#content"

  /** `ContentShareSource`: its video source is optional. */
  datatype ContentShareSource = ContentShareSource(videoSource: Option<VideoSourceId>)

  datatype State = State(
    configuration: MeetingSessionConfiguration,
    observers: seq<ObserverId>,
    adapterSource: Option<VideoSourceId>,
    videoClient: Option<Handle>,
    eglCore: Option<Handle>,
    isCurrentSharing: bool,
    nextHandle: Handle,
    log: seq<Action>)

  /**
   * `createContentShareMeetingSessionConfiguration`: the same meeting,
   * attendee, external user and URLs, with the join token tagged as content.
   */
  function CreateContentShareMeetingSessionConfiguration(cfg: MeetingSessionConfiguration)
    : (r: MeetingSessionConfiguration)
    ensures r.meetingId == cfg.meetingId && r.urls == cfg.urls
    ensures r.credentials.attendeeId == cfg.credentials.attendeeId
    ensures r.credentials.externalUserId == cfg.credentials.externalUserId
    ensures |r.credentials.joinToken| == |cfg.credentials.joinToken| + 8
    ensures cfg.credentials.joinToken <= r.credentials.joinToken
    ensures r.credentials.joinToken[|cfg.credentials.joinToken|..] == Modalities.ModalitySeparator + Modalities.ModalityContent
  {
    MeetingSessionConfiguration(
      cfg.meetingId,
      MeetingSessionCredentials(
        cfg.credentials.attendeeId,
        cfg.credentials.externalUserId,
        cfg.credentials.joinToken + ContentModality),
      cfg.urls)
  }

  /**
   * For a join token without a separator, the content-share token parses
   * back as a modality whose base is the original token and whose modality
   * is `content`.
   */
  lemma ContentTokenParses(cfg: MeetingSessionConfiguration)
    requires Modalities.SeparatorChar !in cfg.credentials.joinToken
    ensures var token := CreateContentShareMeetingSessionConfiguration(cfg).credentials.joinToken;
            && Modalities.Base(Modalities.DefaultModality(token)) == cfg.credentials.joinToken
            && Modalities.HasModality(Modalities.DefaultModality(token), Modalities.ModalityContent)
  {
    var t := cfg.credentials.joinToken;
    assert ContentModality == Modalities.ModalitySeparator + Modalities.ModalityContent;
    assert t + ContentModality == t + Modalities.ModalitySeparator + Modalities.ModalityContent;
    Modalities.ContentTagRoundTrip(t);
  }

  /** Sharing and holding an EGL core go together; factory handles are fresh. */
  ghost predicate Valid(s: State)
  {
    && (s.isCurrentSharing <==> s.eglCore.Some?)
    && HandlesFresh(s)
    && Distinct(s.observers)
  }

  /**
   * Every handle held or named in the log lies below the next one the
   * factories hand out, so each creation yields a handle never seen before.
   */
  ghost predicate HandlesFresh(s: State)
  {
    && (s.eglCore.Some? ==> s.eglCore.value < s.nextHandle)
    && (s.videoClient.Some? ==> s.videoClient.value < s.nextHandle)
    && HandlesBelow(s.log, s.nextHandle)
  }

  /**
   * Construction: the controller binds itself as the state controller's
   * lifecycle handler and subscribes to the video-client observer.
   */
  function Init(cfg: MeetingSessionConfiguration): (s: State)
    ensures Valid(s) && !s.isCurrentSharing && s.observers == []
    ensures s.log == [BindLifecycleHandler, SubscribeToVideoClientState]
  {
    State(cfg, [], None, None, None, false, 0, [BindLifecycleHandler, SubscribeToVideoClientState])
  }

  function Emit(s: State, calls: seq<Action>): State
  {
    s.(log := s.log + calls)
  }

  /** `eglCore = eglCoreFactory.createEglCore()` when there is none. */
  function EnsureEglCore(s: State): State
  {
    if s.eglCore.Some? then s
    else Emit(s.(eglCore := Some(s.nextHandle), nextHandle := s.nextHandle + 1), [CreateEglCore(s.nextHandle)])
  }

  /** `initializeVideoClient`: a new client from the factory (replacing any held one). */
  function InitializeVideoClient(s: State): State
  {
    Emit(s.(videoClient := Some(s.nextHandle), nextHandle := s.nextHandle + 1), [CreateVideoClient(s.nextHandle)])
  }

  /** `startVideoClient`: make the client send-only, then start its service. */
  function StartVideoClient(s: State): State
  {
    match s.videoClient
    case None => s
    case Some(c) =>
      Emit(s, [SetReceiving(c, false),
               StartServiceV3(c, s.configuration.meetingId, s.configuration.credentials.joinToken,
                              ContentShareFlags(), s.eglCore)])
  }

  /** `stopVideoClient`. */
  function StopVideoClient(s: State): State
  {
    match s.videoClient
    case None => s
    case Some(c) => Emit(s, [StopService(c)])
  }

  /** `destroyVideoClient`. */
  function DestroyVideoClient(s: State): State
  {
    match s.videoClient
    case None => s.(videoClient := None)
    case Some(c) => Emit(s.(videoClient := None), [Destroy(c)])
  }

  /** The lifecycle callbacks the state controller makes on this controller. */
  datatype ClientCallback = InitializeClient | StartClient | StopClient | DestroyClient

  function Callback(s: State, cb: ClientCallback): State
  {
    match cb
    case InitializeClient => InitializeVideoClient(s)
    case StartClient => StartVideoClient(s)
    case StopClient => StopVideoClient(s)
    case DestroyClient => DestroyVideoClient(s)
  }

  /**
   * The callbacks the state controller makes, in order, while its `start`
   * or `stop` runs. The state controller is not part of this model, so
   * which callbacks it makes is an input; the empty sequence is a state
   * controller that makes them later, as operations of their own.
   */
  function Callbacks(s: State, cbs: seq<ClientCallback>): State
    decreases |cbs|
  {
    if |cbs| == 0 then s else Callbacks(Callback(s, cbs[0]), cbs[1..])
  }

  /** A call a lifecycle callback makes on the video client or its factory. */
  predicate ClientCall(a: Action)
  {
    a.CreateVideoClient? || a.SetReceiving? || a.StartServiceV3? || a.StopService? || a.Destroy?
  }

  /** Callbacks that neither install nor destroy a client. */
  predicate KeepsClient(cbs: seq<ClientCallback>)
  {
    forall i :: 0 <= i < |cbs| ==> cbs[i] == StartClient || cbs[i] == StopClient
  }

  /** `eglCore?.release()`. */
  function ReleaseCalls(egl: Option<Handle>): seq<Action>
  {
    match egl
    case None => []
    case Some(e) => [ReleaseEglCore(e)]
  }

  /**
   * `stopContentShare`: the state controller's `stop` (with the callbacks
   * it makes meanwhile), then the EGL core's release.
   */
  function StopContentShare(s: State, during: seq<ClientCallback>): State
  {
    var stopped := Callbacks(Emit(s, [StateControllerStop]), during);
    Emit(stopped.(isCurrentSharing := false, eglCore := None), ReleaseCalls(stopped.eglCore))
  }

  /** The first part of `startContentShare`: stop if sharing. */
  function Stopped(s: State, during: seq<ClientCallback>): State
  {
    if s.isCurrentSharing then StopContentShare(s, during) else s
  }

  /** `videoClient?.setExternalVideoSource(…)` and `videoClient?.setSending(true)`. */
  function HandOverCalls(client: Option<Handle>, v: VideoSourceId, egl: Option<Handle>): seq<Action>
  {
    match client
    case None => []
    case Some(c) => [SetExternalVideoSource(c, v, egl), SetSending(c, true)]
  }

  /**
   * The `source.videoSource?.let { … }` block of `startContentShare`: the
   * source goes to whichever client is held once the state controller's
   * `start` (and the callbacks it makes meanwhile) has returned.
   */
  function ShareVideoSource(s: State, v: VideoSourceId, during: seq<ClientCallback>): State
  {
    var withEgl := EnsureEglCore(s);
    var started := Callbacks(Emit(withEgl, [StateControllerStart]), during);
    Emit(started.(adapterSource := Some(v), isCurrentSharing := true),
         HandOverCalls(started.videoClient, v, started.eglCore)
         + Announce(NotifyAll(started.observers, ContentShareStarted)))
  }

  /**
   * `startContentShare(source)`, its `launch` block taken as one step;
   * `duringStop` and `duringStart` are the callbacks the state controller
   * makes inside its `stop` and `start`.
   */
  function StartContentShare(s: State, source: ContentShareSource,
                             duringStop: seq<ClientCallback>, duringStart: seq<ClientCallback>): State
  {
    var stopped := Stopped(s, duringStop);
    match source.videoSource
    case None => stopped
    case Some(v) => ShareVideoSource(stopped, v, duringStart)
  }

  /** `addContentShareObserver`. */
  function AddContentShareObserver(s: State, o: ObserverId): State
  {
    s.(observers := Add(s.observers, o))
  }

  /** `removeContentShareObserver`. */
  function RemoveContentShareObserver(s: State, o: ObserverId): State
  {
    s.(observers := Remove(s.observers, o))
  }

  /** The `AudioVideoObserver` callbacks the controller receives. */
  datatype SessionEvent =
    | AudioSessionStartedConnecting(reconnecting: bool)
    | AudioSessionStarted(reconnecting: bool)
    | AudioSessionDropped
    | AudioSessionStopped(audioStatus: MeetingSessionStatus)
    | AudioSessionCancelledReconnect
    | ConnectionRecovered
    | ConnectionBecamePoor
    | VideoSessionStartedConnecting
    | VideoSessionStarted(startedStatus: MeetingSessionStatus)
    | VideoSessionStopped(stoppedStatus: MeetingSessionStatus)

  /** Only a stopped video session is reported to content-share observers. */
  function OnSessionEvent(s: State, ev: SessionEvent): State
  {
    match ev
    case VideoSessionStopped(status) =>
      var code := StoppedStatus(status);
      Emit(s, Announce(NotifyAll(s.observers, ContentShareStopped(ContentShareStatus(code)))))
    case _ => s
  }

  /** The public operations and callbacks, for reasoning about arbitrary call sequences. */
  datatype Op =
    | Start(source: ContentShareSource, duringStop: seq<ClientCallback>, duringStart: seq<ClientCallback>)
    | Stop(during: seq<ClientCallback>)
    | AddObserver(added: ObserverId)
    | RemoveObserver(removed: ObserverId)
    | Lifecycle(callback: ClientCallback)
    | Session(event: SessionEvent)

  function Step(s: State, op: Op): State
  {
    match op
    case Start(source, duringStop, duringStart) => StartContentShare(s, source, duringStop, duringStart)
    case Stop(during) => StopContentShare(s, during)
    case AddObserver(o) => AddContentShareObserver(s, o)
    case RemoveObserver(o) => RemoveContentShareObserver(s, o)
    case Lifecycle(cb) => Callback(s, cb)
    case Session(ev) => OnSessionEvent(s, ev)
  }

  function Run(s: State, ops: seq<Op>): State
    decreases |ops|
  {
    if |ops| == 0 then s else Run(Step(s, ops[0]), ops[1..])
  }

  /**
   * Every service start is send-only and configured: it comes right after
   * `setReceiving(false)` on the same client and carries the content-share
   * flags and the configured meeting id and join token.
   */
  ghost predicate StartsSendOnly(log: seq<Action>, cfg: MeetingSessionConfiguration)
  {
    && (forall j :: 0 <= j < |log| && log[j].StartServiceV3? ==>
          && 0 < j
          && log[j].flags == ContentShareFlags()
          && log[j].meetingId == cfg.meetingId
          && log[j].joinToken == cfg.credentials.joinToken)
    && (forall i, j :: 0 <= i < j < |log| && j == i + 1 && log[j].StartServiceV3? ==>
          log[i] == SetReceiving(log[j].client, false))
  }

  lemma StartsSendOnlyAppend(a: seq<Action>, b: seq<Action>, cfg: MeetingSessionConfiguration)
    requires StartsSendOnly(a, cfg) && StartsSendOnly(b, cfg)
    ensures StartsSendOnly(a + b, cfg)
  {
    var ab := a + b;
    forall j | 0 <= j < |ab| && ab[j].StartServiceV3?
      ensures 0 < j
    {
      if j < |a| {
        assert ab[j] == a[j];
      } else {
        assert ab[j] == b[j - |a|];
      }
    }
    forall i, j | 0 <= i < j < |ab| && j == i + 1 && ab[j].StartServiceV3?
      ensures ab[i] == SetReceiving(ab[j].client, false)
    {
      if j < |a| {
        assert ab[i] == a[i] && ab[j] == a[j];
      } else {
        assert ab[j] == b[j - |a|];
        assert j - |a| > 0;
        assert ab[i] == b[i - |a|];
      }
    }
  }

  /** A batch without service starts keeps the log invariant. */
  lemma NoStartsSendOnly(log: seq<Action>, calls: seq<Action>, cfg: MeetingSessionConfiguration)
    requires StartsSendOnly(log, cfg)
    requires forall i :: 0 <= i < |calls| ==> !calls[i].StartServiceV3?
    ensures StartsSendOnly(log + calls, cfg)
  {
    StartsSendOnlyAppend(log, calls, cfg);
  }

  /**
   * What a lifecycle callback may change: the held client and the handle
   * counter, with only client calls appended to the log.
   */
  ghost predicate CallbackFrame(s: State, r: State)
  {
    && r.configuration == s.configuration && r.observers == s.observers
    && r.adapterSource == s.adapterSource && r.eglCore == s.eglCore
    && r.isCurrentSharing == s.isCurrentSharing
    && s.nextHandle <= r.nextHandle
    && s.log <= r.log
    && (forall i :: |s.log| <= i < |r.log| ==> ClientCall(r.log[i]))
  }

  lemma FrameTrans(a: State, b: State, c: State)
    requires CallbackFrame(a, b) && CallbackFrame(b, c)
    ensures CallbackFrame(a, c)
  {
    forall i | |a.log| <= i < |c.log|
      ensures ClientCall(c.log[i])
    {
      if i < |b.log| {
        assert c.log[i] == b.log[i];
      }
    }
  }

  /**
   * One lifecycle callback touches only the client: initialize installs
   * the client with the next handle, destroy leaves none, start and stop
   * keep it; handles stay fresh, and every service start it issues is
   * send-only and configured.
   */
  lemma CallbackEffect(s: State, cb: ClientCallback)
    ensures var r := Callback(s, cb);
            && CallbackFrame(s, r)
            && (HandlesFresh(s) ==> HandlesFresh(r))
            && (cb == InitializeClient ==> r.videoClient == Some(s.nextHandle))
            && (cb == DestroyClient ==> r.videoClient.None?)
            && (cb == StartClient || cb == StopClient ==> r.videoClient == s.videoClient)
            && (StartsSendOnly(s.log, s.configuration) ==> StartsSendOnly(r.log, s.configuration))
  {
    var r := Callback(s, cb);
    var d := r.log[|s.log|..];
    ClientLifecycleEffect(s);
    assert r.log == s.log + d;
    forall i | |s.log| <= i < |r.log|
      ensures ClientCall(r.log[i])
    {
      assert r.log[i] == d[i - |s.log|];
    }
    if StartsSendOnly(s.log, s.configuration) {
      if cb == StartClient {
        StartVideoClientEffect(s);
      } else {
        NoStartsSendOnly(s.log, d, s.configuration);
      }
    }
    if HandlesFresh(s) {
      CallbackHandles(s, cb);
    }
  }

  /** A lifecycle callback names only the held or the new client and the held EGL core. */
  lemma CallbackHandles(s: State, cb: ClientCallback)
    requires HandlesFresh(s)
    ensures HandlesFresh(Callback(s, cb))
  {
    var r := Callback(s, cb);
    var d := r.log[|s.log|..];
    ClientLifecycleEffect(s);
    assert r.log == s.log + d;
    assert HandlesBelow(d, r.nextHandle) by {
      forall i, h | 0 <= i < |d| && h in HandlesOf(d[i])
        ensures h < r.nextHandle
      {
      }
    }
    HandlesBelowAppend(s.log, d, r.nextHandle);
  }

  /**
   * A run of lifecycle callbacks touches only the client and appends only
   * client calls; without initialize or destroy the client is the same
   * one, and with no callbacks nothing happens.
   */
  lemma {:induction false} CallbacksEffect(s: State, cbs: seq<ClientCallback>)
    ensures var r := Callbacks(s, cbs);
            && CallbackFrame(s, r)
            && (HandlesFresh(s) ==> HandlesFresh(r))
            && (KeepsClient(cbs) ==> r.videoClient == s.videoClient)
            && (cbs == [] ==> r == s)
    decreases |cbs|
  {
    if |cbs| > 0 {
      var m := Callback(s, cbs[0]);
      CallbackEffect(s, cbs[0]);
      CallbacksEffect(m, cbs[1..]);
      FrameTrans(s, m, Callbacks(m, cbs[1..]));
      if KeepsClient(cbs) {
        assert cbs[0] == StartClient || cbs[0] == StopClient;
        assert KeepsClient(cbs[1..]) by {
          forall i | 0 <= i < |cbs[1..]|
            ensures cbs[1..][i] == StartClient || cbs[1..][i] == StopClient
          {
            assert cbs[1..][i] == cbs[i + 1];
          }
        }
      }
    }
  }

  /** A run of lifecycle callbacks keeps every service start send-only and configured. */
  lemma {:induction false} CallbacksSendOnly(s: State, cbs: seq<ClientCallback>)
    requires StartsSendOnly(s.log, s.configuration)
    ensures var r := Callbacks(s, cbs);
            StartsSendOnly(r.log, s.configuration) && r.configuration == s.configuration
    decreases |cbs|
  {
    if |cbs| > 0 {
      CallbackEffect(s, cbs[0]);
      CallbacksSendOnly(Callback(s, cbs[0]), cbs[1..]);
    }
  }

  /**
   * The calls of one `stopContentShare`: the state controller's `stop`,
   * then only calls on the video client (the callbacks made during
   * `stop`), then the release of the EGL core `egl` when there was one.
   */
  ghost predicate StopShape(d: seq<Action>, egl: Option<Handle>)
  {
    var h := if egl.Some? then 1 else 0;
    && |d| >= 1 + h
    && d[0] == StateControllerStop
    && (forall i :: 1 <= i < |d| - h ==> ClientCall(d[i]))
    && (egl.Some? ==> d[|d| - 1] == ReleaseEglCore(egl.value))
  }

  /** A stop neither creates an EGL core nor calls the state controller's `start`. */
  lemma StopShapeCreatesNothing(d: seq<Action>, egl: Option<Handle>)
    requires StopShape(d, egl)
    ensures forall i :: 0 <= i < |d| ==> !d[i].CreateEglCore? && !d[i].StateControllerStart?
  {
  }

  lemma StopShapeOf(m: seq<Action>, egl: Option<Handle>, d: seq<Action>)
    requires forall i :: 0 <= i < |m| ==> ClientCall(m[i])
    requires d == [StateControllerStop] + m + ReleaseCalls(egl)
    ensures StopShape(d, egl)
    ensures forall i :: 0 <= i < |d| ==> !d[i].Notify?
  {
    forall i | 0 <= i < |d|
      ensures !d[i].Notify? && (1 <= i < 1 + |m| ==> ClientCall(d[i]))
    {
      if 1 <= i < 1 + |m| {
        assert d[i] == m[i - 1];
      }
    }
  }

  /** The stop's log: `stop`, the callbacks' client calls `m`, the release. */
  lemma StopDecompose(s: State, during: seq<ClientCallback>) returns (m: seq<Action>)
    ensures forall i :: 0 <= i < |m| ==> ClientCall(m[i])
    ensures StopContentShare(s, during).log == s.log + [StateControllerStop] + m + ReleaseCalls(s.eglCore)
  {
    var called := Emit(s, [StateControllerStop]);
    var stopped := Callbacks(called, during);
    CallbacksEffect(called, during);
    m := stopped.log[|called.log|..];
    forall i | 0 <= i < |m|
      ensures ClientCall(m[i])
    {
      assert m[i] == stopped.log[|called.log| + i];
    }
    assert stopped.log == called.log + m;
  }

  /** What a stop leaves behind. */
  lemma StopFrame(s: State, during: seq<ClientCallback>)
    ensures var r := StopContentShare(s, during);
            && !r.isCurrentSharing && r.eglCore.None?
            && r.observers == s.observers && r.adapterSource == s.adapterSource
            && r.configuration == s.configuration && s.nextHandle <= r.nextHandle
            && (KeepsClient(during) ==> r.videoClient == s.videoClient)
            && (HandlesFresh(s) ==> HandlesFresh(r))
  {
    CallbacksEffect(Emit(s, [StateControllerStop]), during);
  }

  /** A stop appends to the log and notifies nobody. */
  lemma StopQuiet(s: State, during: seq<ClientCallback>)
    ensures var r := StopContentShare(s, during);
            && s.log <= r.log && Notifications(r.log[|s.log|..]) == []
            && !r.isCurrentSharing && r.eglCore.None? && r.observers == s.observers
  {
    var r := StopContentShare(s, during);
    var m := StopDecompose(s, during);
    StopFrame(s, during);
    assert r.log[|s.log|..] == [StateControllerStop] + m + ReleaseCalls(s.eglCore);
    StopShapeOf(m, s.eglCore, r.log[|s.log|..]);
    NotificationsOfCalls(r.log[|s.log|..]);
  }

  /**
   * `stopContentShare`, from any state and whatever callbacks the state
   * controller makes meanwhile: the state controller's `stop` is called
   * first, then the EGL core (if any) is released; afterwards the
   * controller is not sharing and holds no EGL core. The adapter and
   * observers are untouched, nobody is notified, and the client changes
   * only through initialize or destroy callbacks.
   */
  lemma StopContentShareEffect(s: State, during: seq<ClientCallback>)
    ensures var r := StopContentShare(s, during);
            && !r.isCurrentSharing && r.eglCore.None?
            && r.observers == s.observers && r.adapterSource == s.adapterSource
            && r.configuration == s.configuration && s.nextHandle <= r.nextHandle
            && s.log <= r.log
            && StopShape(r.log[|s.log|..], s.eglCore)
            && Notifications(r.log[|s.log|..]) == []
            && (KeepsClient(during) ==> r.videoClient == s.videoClient)
            && (during == [] ==> r.log[|s.log|..] == [StateControllerStop] + ReleaseCalls(s.eglCore))
    ensures Valid(s) ==> Valid(StopContentShare(s, during))
  {
    var r := StopContentShare(s, during);
    var m := StopDecompose(s, during);
    StopFrame(s, during);
    StopQuiet(s, during);
    assert r.log[|s.log|..] == [StateControllerStop] + m + ReleaseCalls(s.eglCore);
    StopShapeOf(m, s.eglCore, r.log[|s.log|..]);
    if during == [] {
      CallbacksEffect(Emit(s, [StateControllerStop]), during);
    }
  }

  /** A stop keeps every service start send-only and configured. */
  lemma StopSendOnly(s: State, during: seq<ClientCallback>)
    requires StartsSendOnly(s.log, s.configuration)
    ensures var r := StopContentShare(s, during);
            StartsSendOnly(r.log, s.configuration) && r.configuration == s.configuration
  {
    var called := Emit(s, [StateControllerStop]);
    NoStartsSendOnly(s.log, [StateControllerStop], s.configuration);
    CallbacksSendOnly(called, during);
    var stopped := Callbacks(called, during);
    NoStartsSendOnly(stopped.log, ReleaseCalls(stopped.eglCore), s.configuration);
  }

  /**
   * The calls of a start's sharing block with new EGL core `e`: the core's
   * creation, the state controller's `start`, then only calls on the video
   * client (the callbacks made during `start`), then — when a client
   * `client` is held by then — the hand-over of source `v` and
   * `setSending(true)`, and last one "started" per observer of `obs`.
   */
  ghost predicate ShareShape(d: seq<Action>, e: Handle, client: Option<Handle>, v: VideoSourceId, obs: seq<ObserverId>)
  {
    var n := |obs|;
    var h := if client.Some? then 2 else 0;
    && |d| >= 2 + h + n
    && d[0] == CreateEglCore(e) && d[1] == StateControllerStart
    && (forall i :: 2 <= i < |d| - h - n ==> ClientCall(d[i]))
    && (client.Some? ==>
          && d[|d| - n - 2] == SetExternalVideoSource(client.value, v, Some(e))
          && d[|d| - n - 1] == SetSending(client.value, true))
    && d[|d| - n..] == Announce(NotifyAll(obs, ContentShareStarted))
  }

  /** The calls of a sharing block have the shape `ShareShape` describes. */
  lemma ShareShapeOf(m: seq<Action>, e: Handle, client: Option<Handle>, v: VideoSourceId,
                     obs: seq<ObserverId>, d: seq<Action>)
    requires forall i :: 0 <= i < |m| ==> ClientCall(m[i])
    requires d == [CreateEglCore(e), StateControllerStart] + m + HandOverCalls(client, v, Some(e))
                  + Announce(NotifyAll(obs, ContentShareStarted))
    ensures ShareShape(d, e, client, v, obs)
  {
    var handOver := HandOverCalls(client, v, Some(e));
    var calls := [CreateEglCore(e), StateControllerStart] + m + handOver;
    var notes := Announce(NotifyAll(obs, ContentShareStarted));
    var n := |obs|;
    assert |notes| == n;
    assert d == calls + notes;
    assert d[|calls|..] == notes;
    assert |d| - n == |calls|;
    forall i | 2 <= i < 2 + |m|
      ensures ClientCall(d[i])
    {
      assert d[i] == calls[i] == m[i - 2];
    }
    if client.Some? {
      assert d[|calls| - 2] == calls[|calls| - 2] == handOver[0];
      assert d[|calls| - 1] == calls[|calls| - 1] == handOver[1];
    }
  }

  /** The notifications of a sharing block's calls: one "started" per observer. */
  lemma ShareNotesOf(m: seq<Action>, e: Handle, client: Option<Handle>, v: VideoSourceId,
                     obs: seq<ObserverId>, d: seq<Action>)
    requires forall i :: 0 <= i < |m| ==> ClientCall(m[i])
    requires d == [CreateEglCore(e), StateControllerStart] + m + HandOverCalls(client, v, Some(e))
                  + Announce(NotifyAll(obs, ContentShareStarted))
    ensures Notifications(d) == NotifyAll(obs, ContentShareStarted)
  {
    var calls := [CreateEglCore(e), StateControllerStart] + m + HandOverCalls(client, v, Some(e));
    var notes := Announce(NotifyAll(obs, ContentShareStarted));
    forall i | 0 <= i < |calls|
      ensures !calls[i].Notify?
    {
      if 2 <= i < 2 + |m| {
        assert calls[i] == m[i - 2];
      }
    }
    NotificationsOfCalls(calls);
    NotificationsAppend(calls, notes);
    NotificationsOfAnnounce(NotifyAll(obs, ContentShareStarted));
  }

  /** The sharing block's log: core creation, `start`, the callbacks' client calls `m`, hand-over, notifications. */
  lemma ShareDecompose(st: State, v: VideoSourceId, during: seq<ClientCallback>) returns (m: seq<Action>)
    requires st.eglCore.None?
    ensures forall i :: 0 <= i < |m| ==> ClientCall(m[i])
    ensures var r := ShareVideoSource(st, v, during);
            r.log == st.log + [CreateEglCore(st.nextHandle), StateControllerStart] + m
                     + (HandOverCalls(r.videoClient, v, Some(st.nextHandle))
                        + Announce(NotifyAll(st.observers, ContentShareStarted)))
  {
    var e := st.nextHandle;
    var called := Emit(EnsureEglCore(st), [StateControllerStart]);
    var started := Callbacks(called, during);
    assert called.log <= started.log && started.eglCore == Some(e) && started.observers == st.observers by {
      CallbacksEffect(called, during);
    }
    m := started.log[|called.log|..];
    assert called.log == st.log + [CreateEglCore(e), StateControllerStart];
    assert started.log == called.log + m;
    forall i | 0 <= i < |m|
      ensures ClientCall(m[i])
    {
      assert ClientCall(m[i]) by {
        CallbacksEffect(called, during);
        assert m[i] == started.log[|called.log| + i];
      }
    }
  }

  /** The sharing block run on a state holding no EGL core: what it leaves behind. */
  lemma ShareFrame(st: State, v: VideoSourceId, during: seq<ClientCallback>)
    requires st.eglCore.None?
    ensures var r := ShareVideoSource(st, v, during);
            && r.eglCore == Some(st.nextHandle) && st.nextHandle < r.nextHandle
            && r.isCurrentSharing && r.adapterSource == Some(v)
            && r.observers == st.observers && r.configuration == st.configuration
            && (KeepsClient(during) ==> r.videoClient == st.videoClient)
            && (HandlesFresh(st) ==> HandlesFresh(r))
  {
    CallbacksEffect(Emit(EnsureEglCore(st), [StateControllerStart]), during);
  }

  /** The sharing block run on a state holding no EGL core: its calls. */
  lemma ShareLog(st: State, v: VideoSourceId, during: seq<ClientCallback>)
    requires st.eglCore.None?
    ensures var r := ShareVideoSource(st, v, during);
            && st.log <= r.log
            && ShareShape(r.log[|st.log|..], st.nextHandle, r.videoClient, v, st.observers)
  {
    var r := ShareVideoSource(st, v, during);
    var m := ShareDecompose(st, v, during);
    var tail := HandOverCalls(r.videoClient, v, Some(st.nextHandle)) + Announce(NotifyAll(st.observers, ContentShareStarted));
    LogPieces(st.log, [CreateEglCore(st.nextHandle), StateControllerStart], m, tail, r.log);
    ShareShapeOf(m, st.nextHandle, r.videoClient, v, st.observers, r.log[|st.log|..]);
  }

  /** The sharing block run on a state holding no EGL core: its notifications. */
  lemma ShareNotifications(st: State, v: VideoSourceId, during: seq<ClientCallback>)
    requires st.eglCore.None?
    ensures var r := ShareVideoSource(st, v, during);
            && st.log <= r.log
            && Notifications(r.log[|st.log|..]) == NotifyAll(st.observers, ContentShareStarted)
  {
    var r := ShareVideoSource(st, v, during);
    var m := ShareDecompose(st, v, during);
    var tail := HandOverCalls(r.videoClient, v, Some(st.nextHandle)) + Announce(NotifyAll(st.observers, ContentShareStarted));
    LogPieces(st.log, [CreateEglCore(st.nextHandle), StateControllerStart], m, tail, r.log);
    ShareNotesOf(m, st.nextHandle, r.videoClient, v, st.observers, r.log[|st.log|..]);
  }

  /** The sharing block keeps every service start send-only and configured. */
  lemma ShareSendOnly(st: State, v: VideoSourceId, during: seq<ClientCallback>)
    requires StartsSendOnly(st.log, st.configuration)
    ensures var r := ShareVideoSource(st, v, during);
            StartsSendOnly(r.log, st.configuration) && r.configuration == st.configuration
  {
    var w := EnsureEglCore(st);
    if st.eglCore.None? {
      NoStartsSendOnly(st.log, [CreateEglCore(st.nextHandle)], st.configuration);
    }
    var called := Emit(w, [StateControllerStart]);
    NoStartsSendOnly(w.log, [StateControllerStart], st.configuration);
    CallbacksSendOnly(called, during);
    var started := Callbacks(called, during);
    var handOver := HandOverCalls(started.videoClient, v, started.eglCore);
    var notes := Announce(NotifyAll(started.observers, ContentShareStarted));
    var tail := handOver + notes;
    forall i | 0 <= i < |tail|
      ensures !tail[i].StartServiceV3?
    {
      if i >= |handOver| {
        assert tail[i] == notes[i - |handOver|];
      }
    }
    NoStartsSendOnly(started.log, tail, st.configuration);
  }

  /**
   * The order of a start with a video source: if it was sharing, the stop's
   * calls come first; then a newly created EGL core, the state
   * controller's `start` and the callbacks made during it; then the source
   * and `setSending(true)` go to the client held at that point, and last
   * the "started" notifications. Without initialize or destroy callbacks
   * that client is the one held before the start.
   */
  lemma StartOrder(s: State, v: VideoSourceId, duringStop: seq<ClientCallback>, duringStart: seq<ClientCallback>)
    requires s.isCurrentSharing <==> s.eglCore.Some?
    ensures var st := Stopped(s, duringStop);
            var r := StartContentShare(s, ContentShareSource(Some(v)), duringStop, duringStart);
            && s.log <= st.log && st.log <= r.log
            && !st.isCurrentSharing && st.eglCore.None? && s.nextHandle <= st.nextHandle
            && (s.isCurrentSharing ==> StopShape(st.log[|s.log|..], s.eglCore))
            && (!s.isCurrentSharing ==> st == s)
            && r.eglCore == Some(st.nextHandle)
            && r.isCurrentSharing && r.adapterSource == Some(v) && r.observers == s.observers
            && ShareShape(r.log[|st.log|..], st.nextHandle, r.videoClient, v, s.observers)
            && (KeepsClient(duringStop) && KeepsClient(duringStart) ==> r.videoClient == s.videoClient)
  {
    if s.isCurrentSharing {
      StopContentShareEffect(s, duringStop);
    }
    ShareFrame(Stopped(s, duringStop), v, duringStart);
    ShareLog(Stopped(s, duringStop), v, duringStart);
  }

  /** The notifications of a start with a video source: one "started" batch and nothing else. */
  lemma StartNotifications(s: State, v: VideoSourceId, duringStop: seq<ClientCallback>, duringStart: seq<ClientCallback>)
    requires s.isCurrentSharing <==> s.eglCore.Some?
    ensures var r := StartContentShare(s, ContentShareSource(Some(v)), duringStop, duringStart);
            && s.log <= r.log
            && Notifications(r.log[|s.log|..]) == NotifyAll(s.observers, ContentShareStarted)
  {
    var st := Stopped(s, duringStop);
    var r := StartContentShare(s, ContentShareSource(Some(v)), duringStop, duringStart);
    assert s.log <= st.log && st.eglCore.None? && st.observers == s.observers
           && Notifications(st.log[|s.log|..]) == [] by {
      if s.isCurrentSharing {
        StopQuiet(s, duringStop);
      } else {
        assert st.log[|s.log|..] == [];
      }
    }
    assert st.log <= r.log && Notifications(r.log[|st.log|..]) == NotifyAll(s.observers, ContentShareStarted) by {
      ShareNotifications(st, v, duringStart);
    }
    NotificationsSplit(s.log, st.log, r.log);
  }

  /** A start, with or without a video source, keeps the state valid. */
  lemma StartValid(s: State, source: ContentShareSource, duringStop: seq<ClientCallback>, duringStart: seq<ClientCallback>)
    requires Valid(s)
    ensures var r := StartContentShare(s, source, duringStop, duringStart);
            Valid(r) && r.configuration == s.configuration
  {
    var st := Stopped(s, duringStop);
    if s.isCurrentSharing {
      StopContentShareEffect(s, duringStop);
    }
    if source.videoSource.Some? {
      ShareFrame(st, source.videoSource.value, duringStart);
    }
  }

  /** A start, with or without a video source, keeps every service start send-only. */
  lemma StartSendOnly(s: State, source: ContentShareSource, duringStop: seq<ClientCallback>, duringStart: seq<ClientCallback>)
    requires StartsSendOnly(s.log, s.configuration)
    ensures var r := StartContentShare(s, source, duringStop, duringStart);
            StartsSendOnly(r.log, s.configuration) && r.configuration == s.configuration
  {
    if s.isCurrentSharing {
      StopSendOnly(s, duringStop);
    }
    if source.videoSource.Some? {
      ShareSendOnly(Stopped(s, duringStop), source.videoSource.value, duringStart);
    }
  }

  /**
   * `startContentShare` with a video source, from a valid state: it ends
   * sharing `v` through an EGL core created in this step, whose handle no
   * earlier log entry names, after the stop
   * (if it was sharing) is complete; the source and `setSending(true)` go
   * to the client held once the state controller's `start` has returned;
   * every observer is told "started" exactly once, with no other
   * notification.
   */
  lemma StartContentShareEffect(s: State, v: VideoSourceId, duringStop: seq<ClientCallback>,
                                duringStart: seq<ClientCallback>, o: ObserverId)
    requires Valid(s)
    ensures var st := Stopped(s, duringStop);
            var r := StartContentShare(s, ContentShareSource(Some(v)), duringStop, duringStart);
            && Valid(r)
            && r.isCurrentSharing && r.adapterSource == Some(v) && r.observers == s.observers
            && r.eglCore == Some(st.nextHandle) && s.nextHandle <= st.nextHandle
            && Unused(st.log, r.eglCore.value)
            && s.log <= st.log && st.log <= r.log
            && ShareShape(r.log[|st.log|..], st.nextHandle, r.videoClient, v, s.observers)
            && Notifications(r.log[|s.log|..]) == NotifyAll(s.observers, ContentShareStarted)
            && multiset(Notifications(r.log[|s.log|..]))[Notification(o, ContentShareStarted)] ==
               (if o in s.observers then 1 else 0)
  {
    StartValid(s, ContentShareSource(Some(v)), duringStop, duringStart);
    StartOrder(s, v, duringStop, duringStart);
    StartNotifications(s, v, duringStop, duringStart);
    NotifyAllOnce(s.observers, ContentShareStarted, o);
    var st := Stopped(s, duringStop);
    assert Unused(st.log, st.nextHandle) by {
      assert HandlesBelow(st.log, st.nextHandle) by {
        if s.isCurrentSharing {
          StopContentShareEffect(s, duringStop);
        }
      }
    }
  }

  /**
   * A first share whose state controller initializes and starts the client
   * inside `start`: the new client is made send-only and started, then
   * gets the source and `setSending(true)`.
   */
  lemma FirstShareHandsOver(cfg: MeetingSessionConfiguration, v: VideoSourceId)
    ensures var r := StartContentShare(Init(cfg), ContentShareSource(Some(v)), [], [InitializeClient, StartClient]);
            && r.isCurrentSharing && r.eglCore == Some(0) && r.videoClient == Some(1)
            && r.log == Init(cfg).log + [
                 CreateEglCore(0), StateControllerStart,
                 CreateVideoClient(1), SetReceiving(1, false),
                 StartServiceV3(1, cfg.meetingId, cfg.credentials.joinToken, ContentShareFlags(), Some(0)),
                 SetExternalVideoSource(1, v, Some(0)), SetSending(1, true)]
  {
    var w := EnsureEglCore(Init(cfg));
    var called := Emit(w, [StateControllerStart]);
    var c1 := Callback(called, InitializeClient);
    var c2 := Callback(c1, StartClient);
    assert Callbacks(called, [InitializeClient, StartClient]) == Callbacks(c1, [StartClient]);
    assert Callbacks(c1, [StartClient]) == Callbacks(c2, []) == c2;
    assert NotifyAll([], ContentShareStarted) == [];
  }

  /**
   * Starting again while sharing replaces the session: the state
   * controller's `stop` is called, only client calls follow until the old
   * EGL core is released, and only then is a new, different core created
   * and the state controller's `start` called.
   */
  lemma RestartStopsFirst(s: State, v: VideoSourceId, duringStop: seq<ClientCallback>, duringStart: seq<ClientCallback>)
    requires Valid(s) && s.isCurrentSharing
    ensures var st := StopContentShare(s, duringStop);
            var r := StartContentShare(s, ContentShareSource(Some(v)), duringStop, duringStart);
            && s.log <= st.log && st.log <= r.log && |s.log| + 2 <= |st.log| && |st.log| + 2 <= |r.log|
            && r.eglCore.Some?
            && r.log[|s.log|] == StateControllerStop
            && (forall i :: |s.log| < i < |st.log| - 1 ==> ClientCall(r.log[i]))
            && r.log[|st.log| - 1] == ReleaseEglCore(s.eglCore.value)
            && r.log[|st.log|] == CreateEglCore(r.eglCore.value)
            && r.log[|st.log| + 1] == StateControllerStart
            && r.eglCore.value != s.eglCore.value
  {
    var st := StopContentShare(s, duringStop);
    var r := StartContentShare(s, ContentShareSource(Some(v)), duringStop, duringStart);
    var m1 := StopDecompose(s, duringStop);
    StopFrame(s, duringStop);
    var m2 := ShareDecompose(st, v, duringStart);
    ShareFrame(st, v, duringStart);
    var e := st.nextHandle;
    var tail := HandOverCalls(r.videoClient, v, Some(e)) + Announce(NotifyAll(st.observers, ContentShareStarted));
    RestartPieces(s.log, m1, ReleaseEglCore(s.eglCore.value), st.log, e, m2, tail, r.log);
  }

  /** Reading back a restart's log: `stop`, client calls, release, then creation and `start`. */
  lemma RestartPieces(base: seq<Action>, m1: seq<Action>, release: Action, mid: seq<Action>,
                      e: Handle, m2: seq<Action>, tail: seq<Action>, whole: seq<Action>)
    requires forall i :: 0 <= i < |m1| ==> ClientCall(m1[i])
    requires mid == base + [StateControllerStop] + m1 + [release]
    requires whole == mid + [CreateEglCore(e), StateControllerStart] + m2 + tail
    ensures base <= mid && mid <= whole && |base| + 2 <= |mid| && |mid| + 2 <= |whole|
    ensures whole[|base|] == StateControllerStop
    ensures forall i :: |base| < i < |mid| - 1 ==> ClientCall(whole[i])
    ensures whole[|mid| - 1] == release
    ensures whole[|mid|] == CreateEglCore(e) && whole[|mid| + 1] == StateControllerStart
  {
    assert whole == mid + ([CreateEglCore(e), StateControllerStart] + m2 + tail);
    forall i | |base| < i < |mid| - 1
      ensures ClientCall(whole[i])
    {
      assert whole[i] == mid[i] == m1[i - |base| - 1];
    }
  }

  /** Two consecutive log segments that each carry one "started" batch to `obs`. */
  lemma TwoStartedBatches(a: seq<Action>, b: seq<Action>, c: seq<Action>, obs: seq<ObserverId>, o: ObserverId)
    requires Distinct(obs) && o in obs
    requires a <= b && b <= c
    requires Notifications(b[|a|..]) == NotifyAll(obs, ContentShareStarted)
    requires Notifications(c[|b|..]) == NotifyAll(obs, ContentShareStarted)
    ensures multiset(Notifications(c[|a|..]))[Notification(o, ContentShareStarted)] == 2
    ensures forall status :: multiset(Notifications(c[|a|..]))[Notification(o, ContentShareStopped(status))] == 0
  {
    assert c[|a|..] == b[|a|..] + c[|b|..];
    NotificationsAppend(b[|a|..], c[|b|..]);
    var ns := NotifyAll(obs, ContentShareStarted);
    assert multiset(ns + ns) == multiset(ns) + multiset(ns);
    NotifyAllOnce(obs, ContentShareStarted, o);
  }

  /**
   * Two starts in a row with video sources: `startContentShare` itself
   * emits no "stopped" (the stop inside the second start is silent), so
   * within these two steps each subscriber hears "started" twice and
   * "stopped" never.
   */
  lemma TwoStartsAnnounceNoStop(s: State, v1: VideoSourceId, v2: VideoSourceId,
                                stop1: seq<ClientCallback>, start1: seq<ClientCallback>,
                                stop2: seq<ClientCallback>, start2: seq<ClientCallback>, o: ObserverId)
    requires Valid(s) && o in s.observers
    ensures var r1 := StartContentShare(s, ContentShareSource(Some(v1)), stop1, start1);
            var r2 := StartContentShare(r1, ContentShareSource(Some(v2)), stop2, start2);
            && s.log <= r2.log
            && multiset(Notifications(r2.log[|s.log|..]))[Notification(o, ContentShareStarted)] == 2
            && forall status :: multiset(Notifications(r2.log[|s.log|..]))[Notification(o, ContentShareStopped(status))] == 0
  {
    var r1 := StartContentShare(s, ContentShareSource(Some(v1)), stop1, start1);
    var r2 := StartContentShare(r1, ContentShareSource(Some(v2)), stop2, start2);
    StartValid(s, ContentShareSource(Some(v1)), stop1, start1);
    StartOrder(s, v1, stop1, start1);
    StartNotifications(s, v1, stop1, start1);
    StartNotifications(r1, v2, stop2, start2);
    TwoStartedBatches(s.log, r1.log, r2.log, s.observers, o);
  }

  /**
   * `startContentShare` without a video source notifies nobody, creates
   * no EGL core and never calls the state controller's `start`; if it was
   * sharing the stop still runs, so it ends not sharing, and if it was not
   * sharing nothing changes at all.
   */
  lemma StartWithoutVideoSource(s: State, duringStop: seq<ClientCallback>, duringStart: seq<ClientCallback>)
    requires Valid(s)
    ensures var r := StartContentShare(s, ContentShareSource(None), duringStop, duringStart);
            && Valid(r) && !r.isCurrentSharing && r.eglCore.None?
            && s.log <= r.log
            && Notifications(r.log[|s.log|..]) == []
            && (forall i :: |s.log| <= i < |r.log| ==> !r.log[i].CreateEglCore? && !r.log[i].StateControllerStart?)
            && (s.isCurrentSharing ==> StopShape(r.log[|s.log|..], s.eglCore))
            && (!s.isCurrentSharing ==> r == s)
  {
    var r := StartContentShare(s, ContentShareSource(None), duringStop, duringStart);
    if s.isCurrentSharing {
      StopContentShareEffect(s, duringStop);
      StopShapeCreatesNothing(r.log[|s.log|..], s.eglCore);
    } else {
      assert r == s && r.log[|s.log|..] == [];
    }
    var d := r.log[|s.log|..];
    forall i | |s.log| <= i < |r.log|
      ensures !r.log[i].CreateEglCore? && !r.log[i].StateControllerStart?
    {
      assert r.log[i] == d[i - |s.log|];
    }
  }

  /**
   * `startVideoClient` makes a held client send-only and starts its
   * service with the content-share flags, the configured meeting id and
   * join token and the current EGL context; without a client it does
   * nothing. The log invariant is preserved either way.
   */
  lemma StartVideoClientEffect(s: State)
    requires StartsSendOnly(s.log, s.configuration)
    ensures var r := StartVideoClient(s);
            && r.log[..|s.log|] == s.log
            && (s.videoClient.None? ==> r == s)
            && (s.videoClient.Some? ==>
                  && |r.log| == |s.log| + 2
                  && r.log[|s.log|] == SetReceiving(s.videoClient.value, false)
                  && r.log[|s.log| + 1].StartServiceV3?
                  && r.log[|s.log| + 1].flags == ContentShareFlags()
                  && r.log[|s.log| + 1].meetingId == s.configuration.meetingId
                  && r.log[|s.log| + 1].joinToken == s.configuration.credentials.joinToken
                  && r.log[|s.log| + 1].eglContext == s.eglCore)
            && StartsSendOnly(r.log, s.configuration)
            && r.videoClient == s.videoClient && r.eglCore == s.eglCore
            && r.isCurrentSharing == s.isCurrentSharing && r.observers == s.observers
  {
    if s.videoClient.Some? {
      var c := s.videoClient.value;
      var calls := [SetReceiving(c, false),
                    StartServiceV3(c, s.configuration.meetingId, s.configuration.credentials.joinToken,
                                   ContentShareFlags(), s.eglCore)];
      StartsSendOnlyAppend(s.log, calls, s.configuration);
    }
  }

  /**
   * The client lifecycle callbacks: `initializeVideoClient` installs a
   * client with the next handle; `stopVideoClient` stops a held client and keeps it;
   * `destroyVideoClient` destroys a held client and leaves none. None of
   * them touches sharing, the EGL core or the observers.
   */
  lemma ClientLifecycleEffect(s: State)
    ensures var r := InitializeVideoClient(s);
            && r.videoClient == Some(s.nextHandle) && r.log == s.log + [CreateVideoClient(s.nextHandle)]
            && r.eglCore == s.eglCore && r.isCurrentSharing == s.isCurrentSharing
    ensures var r := StopVideoClient(s);
            && r.videoClient == s.videoClient
            && r.log == s.log + (if s.videoClient.Some? then [StopService(s.videoClient.value)] else [])
            && r.eglCore == s.eglCore && r.isCurrentSharing == s.isCurrentSharing
    ensures var r := DestroyVideoClient(s);
            && r.videoClient.None?
            && r.log == s.log + (if s.videoClient.Some? then [Destroy(s.videoClient.value)] else [])
            && r.eglCore == s.eglCore && r.isCurrentSharing == s.isCurrentSharing
  {
    assert s.log + [] == s.log;
  }

  /**
   * Of the session callbacks only a stopped video session notifies: every
   * observer hears "stopped" exactly once, with `OK` exactly when the
   * session's status is `OK` and `VideoServiceFailed` otherwise. Every
   * other callback changes nothing.
   */
  lemma SessionEventEffect(s: State, ev: SessionEvent, o: ObserverId)
    requires Valid(s)
    ensures var r := OnSessionEvent(s, ev);
            && (!ev.VideoSessionStopped? ==> r == s)
            && (ev.VideoSessionStopped? ==>
                  && r.log[..|s.log|] == s.log
                  && r.isCurrentSharing == s.isCurrentSharing && r.eglCore == s.eglCore
                  && r.videoClient == s.videoClient && r.observers == s.observers
                  && exists code: ContentShareStatusCode ::
                       && (code == OK <==> ev.stoppedStatus.statusCode == SessionOK)
                       && Notifications(r.log[|s.log|..]) == NotifyAll(s.observers, ContentShareStopped(ContentShareStatus(code)))
                       && r.log[|s.log|..] == Announce(NotifyAll(s.observers, ContentShareStopped(ContentShareStatus(code))))
                       && multiset(Notifications(r.log[|s.log|..]))[Notification(o, ContentShareStopped(ContentShareStatus(code)))] ==
                          (if o in s.observers then 1 else 0))
  {
    if ev.VideoSessionStopped? {
      var code := StoppedStatus(ev.stoppedStatus);
      var e := ContentShareStopped(ContentShareStatus(code));
      var r := OnSessionEvent(s, ev);
      assert r.log[|s.log|..] == Announce(NotifyAll(s.observers, e));
      NotificationsOfAnnounce(NotifyAll(s.observers, e));
      NotifyAllOnce(s.observers, e, o);
    }
  }

  /** Every operation keeps the state valid. */
  lemma StepValid(s: State, op: Op)
    requires Valid(s)
    ensures var r := Step(s, op);
            Valid(r) && r.configuration == s.configuration
  {
    match op
    case Start(source, duringStop, duringStart) =>
      StartValid(s, source, duringStop, duringStart);
    case Stop(during) =>
      StopContentShareEffect(s, during);
    case Lifecycle(cb) =>
      CallbackEffect(s, cb);
    case _ =>
  }

  /** Every operation keeps every service start send-only and configured. */
  lemma StepSendOnly(s: State, op: Op)
    requires StartsSendOnly(s.log, s.configuration)
    ensures var r := Step(s, op);
            StartsSendOnly(r.log, s.configuration) && r.configuration == s.configuration
  {
    match op
    case Start(source, duringStop, duringStart) =>
      StartSendOnly(s, source, duringStop, duringStart);
    case Stop(during) =>
      StopSendOnly(s, during);
    case Lifecycle(cb) =>
      CallbackEffect(s, cb);
    case Session(ev) =>
      if ev.VideoSessionStopped? {
        var notes := Announce(NotifyAll(s.observers, ContentShareStopped(ContentShareStatus(StoppedStatus(ev.stoppedStatus)))));
        NoStartsSendOnly(s.log, notes, s.configuration);
      }
    case AddObserver(o) =>
    case RemoveObserver(o) =>
  }

  /**
   * Across any sequence of operations and callbacks from a valid state:
   * sharing and holding an EGL core go together, the observer set has no
   * duplicates, and every service start is send-only with the content-share
   * flags and the configured meeting id and join token.
   */
  lemma {:induction false} RunValid(s: State, ops: seq<Op>)
    requires Valid(s) && StartsSendOnly(s.log, s.configuration)
    ensures var r := Run(s, ops);
            && Valid(r) && (r.isCurrentSharing <==> r.eglCore.Some?)
            && StartsSendOnly(r.log, s.configuration) && r.configuration == s.configuration
    decreases |ops|
  {
    if |ops| > 0 {
      StepValid(s, ops[0]);
      StepSendOnly(s, ops[0]);
      RunValid(Step(s, ops[0]), ops[1..]);
    }
  }

  /** The initial state satisfies the invariants, so they hold after any run from it. */
  lemma InitRunValid(cfg: MeetingSessionConfiguration, ops: seq<Op>)
    ensures var r := Run(Init(cfg), ops);
            Valid(r) && (r.isCurrentSharing <==> r.eglCore.Some?) && StartsSendOnly(r.log, cfg)
  {
    RunValid(Init(cfg), ops);
  }
}
