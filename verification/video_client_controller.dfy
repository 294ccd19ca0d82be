/**
 * `DefaultContentShareVideoClientController`: owns the content-share video
 * client and EGL core directly. Starting while sharing first performs the
 * full stop; each start creates what is missing, starts the send-only
 * client, hands it the video source and notifies subscribers.
 */
module VideoClientController {
  import opened Optional
  import opened ObserverRegistry
  import opened Session
  import opened Collaborators
  import VideoClientObserver

  datatype State = State(
    configuration: MeetingSessionConfiguration,
    clientObserver: VideoClientObserver.State,
    observers: seq<ObserverId>,
    adapterSource: Option<VideoSourceId>,
    videoClient: Option<Handle>,
    eglCore: Option<Handle>,
    isSharing: bool,
    nextHandle: Handle,
    log: seq<Action>)

  /** Every video client is created send-only: its creation is immediately followed by `setReceiving(false)`. */
  ghost predicate SendOnly(log: seq<Action>)
  {
    && (forall i :: 0 <= i < |log| && log[i].CreateVideoClient? ==> i + 1 < |log|)
    && (forall i, j :: 0 <= i < j < |log| && j == i + 1 && log[i].CreateVideoClient? ==>
          log[j] == SetReceiving(log[i].client, false))
  }

  /** Every `startServiceV3` carries the content-share flags and the configured meeting id and token. */
  ghost predicate StartsConfigured(log: seq<Action>, cfg: MeetingSessionConfiguration)
  {
    forall i :: 0 <= i < |log| && log[i].StartServiceV3? ==>
      && log[i].flags == ContentShareFlags()
      && log[i].meetingId == cfg.meetingId
      && log[i].joinToken == cfg.credentials.joinToken
  }

  /**
   * Sharing, holding an EGL core and holding a video client go together;
   * every handle held or named in the log lies below the next one the
   * factories hand out, so each creation yields a handle never seen before.
   */
  ghost predicate Valid(s: State)
  {
    && (s.isSharing <==> s.eglCore.Some?)
    && (s.isSharing <==> s.videoClient.Some?)
    && (s.eglCore.Some? ==> s.eglCore.value < s.nextHandle)
    && (s.videoClient.Some? ==> s.videoClient.value < s.nextHandle)
    && HandlesBelow(s.log, s.nextHandle)
    && Distinct(s.observers)
    && VideoClientObserver.Valid(s.clientObserver)
    && SendOnly(s.log)
    && StartsConfigured(s.log, s.configuration)
  }

  function Init(cfg: MeetingSessionConfiguration, clientObserver: VideoClientObserver.State): (s: State)
    requires VideoClientObserver.Valid(clientObserver)
    ensures Valid(s) && !s.isSharing && s.observers == [] && s.log == []
  {
    State(cfg, clientObserver, [], None, None, None, false, 0, [])
  }

  /** Append collaborator calls to the log. */
  function Emit(s: State, calls: seq<Action>): State
  {
    s.(log := s.log + calls)
  }

  /** `eglCore = eglCoreFactory.createEglCore()` when there is none. */
  function EnsureEglCore(s: State): State
  {
    if s.eglCore.Some? then s
    else Emit(s.(eglCore := Some(s.nextHandle), nextHandle := s.nextHandle + 1), [CreateEglCore(s.nextHandle)])
  }

  /** `initializeVideoClient`: a new client from the factory, made send-only. */
  function InitializeVideoClient(s: State): State
  {
    var c := s.nextHandle;
    Emit(s.(videoClient := Some(c), nextHandle := c + 1), [CreateVideoClient(c), SetReceiving(c, false)])
  }

  /** `startVideoClient`: `startServiceV3` with the flag word, meeting id, join token and EGL context. */
  function StartVideoClient(s: State): State
  {
    match s.videoClient
    case None => s
    case Some(c) =>
      Emit(s, [StartServiceV3(c, s.configuration.meetingId, s.configuration.credentials.joinToken,
                              ContentShareFlags(), s.eglCore)])
  }

  /** Hand the adapter (now carrying `v`) to the client, turn sending on, and notify. */
  function ShareSource(s: State, v: VideoSourceId): State
  {
    var calls := match s.videoClient
      case None => []
      case Some(c) => [SetExternalVideoSource(c, v, s.eglCore), SetSending(c, true)];
    Emit(s.(adapterSource := Some(v), isSharing := true),
         calls + Announce(NotifyAll(s.observers, ContentShareStarted)))
  }

  /** `startVideoSharing(videoSource)`. */
  function StartVideoSharing(s: State, v: VideoSourceId): State
  {
    var stopped := if s.isSharing then StopVideoSharing(s) else s;
    var withEgl := EnsureEglCore(stopped);
    var withClient := if withEgl.videoClient.None? then InitializeVideoClient(withEgl) else withEgl;
    ShareSource(StartVideoClient(withClient), v)
  }

  /** The calls of `stopVideoSharing`: stop and destroy the client, release the EGL core. */
  function StopCalls(s: State): seq<Action>
  {
    (match s.videoClient
     case None => []
     case Some(c) => [StopService(c), Destroy(c)])
    + match s.eglCore
      case None => []
      case Some(e) => [ReleaseEglCore(e)]
  }

  /** `stopVideoSharing`. */
  function StopVideoSharing(s: State): State
  {
    Emit(s.(videoClient := None, isSharing := false, eglCore := None), StopCalls(s))
  }

  /** `subscribeToVideoClientStateChange`: add here and forward to the client observer. */
  function Subscribe(s: State, o: ObserverId): State
  {
    s.(observers := Add(s.observers, o),
       clientObserver := VideoClientObserver.Subscribe(s.clientObserver, o))
  }

  /** `unsubscribeFromVideoClientStateChange`: remove here and forward to the client observer. */
  function Unsubscribe(s: State, o: ObserverId): State
  {
    s.(observers := Remove(s.observers, o),
       clientObserver := VideoClientObserver.Unsubscribe(s.clientObserver, o))
  }

  /** The public operations, for reasoning about arbitrary call sequences. */
  datatype Op =
    | StartSharing(source: VideoSourceId)
    | StopSharing
    | SubscribeObserver(observer: ObserverId)
    | UnsubscribeObserver(observer: ObserverId)

  function Step(s: State, op: Op): State
  {
    match op
    case StartSharing(v) => StartVideoSharing(s, v)
    case StopSharing => StopVideoSharing(s)
    case SubscribeObserver(o) => Subscribe(s, o)
    case UnsubscribeObserver(o) => Unsubscribe(s, o)
  }

  function Run(s: State, ops: seq<Op>): State
    decreases |ops|
  {
    if |ops| == 0 then s else Run(Step(s, ops[0]), ops[1..])
  }

  /** Appending a send-only batch to a send-only log keeps it send-only. */
  lemma SendOnlyAppend(a: seq<Action>, b: seq<Action>)
    requires SendOnly(a) && SendOnly(b)
    ensures SendOnly(a + b)
  {
    var ab := a + b;
    forall i | 0 <= i < |ab| && ab[i].CreateVideoClient?
      ensures i + 1 < |ab|
    {
      if i < |a| {
        assert a[i] == ab[i];
      } else {
        assert b[i - |a|] == ab[i];
      }
    }
    forall i, j | 0 <= i < j < |ab| && j == i + 1 && ab[i].CreateVideoClient?
      ensures ab[j] == SetReceiving(ab[i].client, false)
    {
      if i < |a| {
        assert a[i] == ab[i];
        assert j < |a|;
        assert a[j] == ab[j];
      } else {
        assert b[i - |a|] == ab[i] && b[j - |a|] == ab[j];
      }
    }
  }

  /** A batch that creates no client is trivially send-only. */
  lemma NoCreationSendOnly(calls: seq<Action>)
    requires forall i :: 0 <= i < |calls| ==> !calls[i].CreateVideoClient?
    ensures SendOnly(calls)
  {
  }

  /** Emitting a send-only, correctly configured batch preserves both log invariants. */
  lemma EmitKeepsLogInvariants(s: State, calls: seq<Action>)
    requires SendOnly(s.log) && StartsConfigured(s.log, s.configuration)
    requires SendOnly(calls) && StartsConfigured(calls, s.configuration)
    ensures SendOnly(Emit(s, calls).log) && StartsConfigured(Emit(s, calls).log, s.configuration)
  {
    SendOnlyAppend(s.log, calls);
  }

  /**
   * `stopVideoSharing`, from any state: no client, no EGL core, not
   * sharing; the client (if any) is stopped then destroyed, then the EGL
   * core (if any) released; nothing else is called or notified.
   */
  lemma StopVideoSharingEffect(s: State)
    ensures var r := StopVideoSharing(s);
            && r.videoClient.None? && r.eglCore.None? && !r.isSharing
            && r.observers == s.observers && r.clientObserver == s.clientObserver
            && r.adapterSource == s.adapterSource && r.nextHandle == s.nextHandle
            && s.log <= r.log
            && (s.videoClient.Some? && s.eglCore.Some? ==>
                  r.log[|s.log|..] == [StopService(s.videoClient.value), Destroy(s.videoClient.value),
                                       ReleaseEglCore(s.eglCore.value)])
            && (s.videoClient.None? && s.eglCore.None? ==> r.log == s.log)
            && Notifications(r.log[|s.log|..]) == []
  {
    var r := StopVideoSharing(s);
    var calls := StopCalls(s);
    assert r.log[|s.log|..] == calls;
    StopCallsShape(s);
    NotificationsOfCalls(calls);
    if s.videoClient.None? && s.eglCore.None? {
      assert s.log + [] == s.log;
    }
  }

  /** The stop's calls are only stops, destroys and releases; both or neither of client and core give three or none. */
  lemma StopCallsShape(s: State)
    ensures forall i :: 0 <= i < |StopCalls(s)| ==>
              StopCalls(s)[i].StopService? || StopCalls(s)[i].Destroy? || StopCalls(s)[i].ReleaseEglCore?
    ensures s.videoClient.Some? && s.eglCore.Some? ==>
              StopCalls(s) == [StopService(s.videoClient.value), Destroy(s.videoClient.value), ReleaseEglCore(s.eglCore.value)]
    ensures s.videoClient.None? && s.eglCore.None? ==> StopCalls(s) == []
  {
  }

  /** A stop keeps the state valid. */
  lemma StopValid(s: State)
    requires Valid(s)
    ensures Valid(StopVideoSharing(s))
  {
    var calls := StopCalls(s);
    StopCallsShape(s);
    NoCreationSendOnly(calls);
    EmitKeepsLogInvariants(s.(videoClient := None, isSharing := false, eglCore := None), calls);
    assert HandlesBelow(calls, s.nextHandle);
    HandlesBelowAppend(s.log, calls, s.nextHandle);
  }

  /** Stopping twice is stopping once; stopping while not sharing changes nothing and calls nothing. */
  lemma StopIdempotent(s: State)
    ensures StopVideoSharing(StopVideoSharing(s)) == StopVideoSharing(s)
    ensures Valid(s) && !s.isSharing ==> StopVideoSharing(s) == s
  {
    var r := StopVideoSharing(s);
    assert r.log + [] == r.log;
    if Valid(s) && !s.isSharing {
      assert s.log + [] == s.log;
    }
  }

  /** The calls a start makes on a state without client or EGL core, the new core being `e` and client `c`. */
  function FreshStartCalls(cfg: MeetingSessionConfiguration, e: Handle, c: Handle, v: VideoSourceId): seq<Action>
  {
    [CreateEglCore(e), CreateVideoClient(c), SetReceiving(c, false),
     StartServiceV3(c, cfg.meetingId, cfg.credentials.joinToken, ContentShareFlags(), Some(e)),
     SetExternalVideoSource(c, v, Some(e)), SetSending(c, true)]
  }

  /** A start's calls notify nobody. */
  lemma FreshStartCallsQuiet(cfg: MeetingSessionConfiguration, e: Handle, c: Handle, v: VideoSourceId)
    ensures Notifications(FreshStartCalls(cfg, e, c, v)) == []
  {
    NotificationsOfCalls(FreshStartCalls(cfg, e, c, v));
  }

  /** The state before a start's creations: stopped if it was sharing. */
  function Stopped(s: State): State
  {
    if s.isSharing then StopVideoSharing(s) else s
  }

  /** What `startVideoSharing` does once nothing is held: the fresh calls, then the notifications. */
  lemma StartFromStopped(s: State, v: VideoSourceId)
    requires s.videoClient.None? && s.eglCore.None?
    ensures var e := s.nextHandle;
            var c := s.nextHandle + 1;
            var r := ShareSource(StartVideoClient(InitializeVideoClient(EnsureEglCore(s))), v);
            && r.eglCore == Some(e) && r.videoClient == Some(c) && r.nextHandle == s.nextHandle + 2
            && r.isSharing && r.adapterSource == Some(v)
            && r.observers == s.observers && r.clientObserver == s.clientObserver
            && r.configuration == s.configuration
            && r.log == s.log + FreshStartCalls(s.configuration, e, c, v)
                              + Announce(NotifyAll(s.observers, ContentShareStarted))
  {
    var e := s.nextHandle;
    var c := s.nextHandle + 1;
    var cfg := s.configuration;
    var withEgl := EnsureEglCore(s);
    assert withEgl.log == s.log + [CreateEglCore(e)];
    var withClient := InitializeVideoClient(withEgl);
    assert withClient.log == withEgl.log + [CreateVideoClient(c), SetReceiving(c, false)];
    var started := StartVideoClient(withClient);
    var start := StartServiceV3(c, cfg.meetingId, cfg.credentials.joinToken, ContentShareFlags(), Some(e));
    assert started.log == withClient.log + [start];
    var shared := ShareSource(started, v);
    var notes := Announce(NotifyAll(s.observers, ContentShareStarted));
    var share := [SetExternalVideoSource(c, v, Some(e)), SetSending(c, true)];
    assert shared.log == started.log + (share + notes);
    assert FreshStartCalls(cfg, e, c, v)
        == [CreateEglCore(e)] + [CreateVideoClient(c), SetReceiving(c, false)] + [start] + share;
    Regroup(s.log, [CreateEglCore(e)], [CreateVideoClient(c), SetReceiving(c, false)], [start], share, notes);
  }

  /** Re-bracketing a log built up step by step into "prefix, batch, notifications". */
  lemma Regroup(base: seq<Action>, a: seq<Action>, b: seq<Action>, c: seq<Action>, d: seq<Action>, e: seq<Action>)
    ensures base + a + b + c + (d + e) == base + (a + b + c + d) + e
  {
  }

  /** The log a start appends keeps both log invariants. */
  lemma FreshStartLogInvariants(cfg: MeetingSessionConfiguration, e: Handle, c: Handle, v: VideoSourceId,
                                notes: seq<Notification>)
    ensures SendOnly(FreshStartCalls(cfg, e, c, v) + Announce(notes))
    ensures StartsConfigured(FreshStartCalls(cfg, e, c, v) + Announce(notes), cfg)
  {
    var calls := FreshStartCalls(cfg, e, c, v);
    var b := calls + Announce(notes);
    forall i, j | 0 <= i < j < |b| && j == i + 1 && b[i].CreateVideoClient?
      ensures b[j] == SetReceiving(b[i].client, false)
    {
      assert i == 1;
    }
    forall i | 0 <= i < |b| && b[i].StartServiceV3?
      ensures b[i].flags == ContentShareFlags() && b[i].meetingId == cfg.meetingId
           && b[i].joinToken == cfg.credentials.joinToken
    {
    }
  }

  /** A start: the stopped prefix, then the fresh calls and notifications. */
  lemma StartLog(s: State, v: VideoSourceId)
    requires s.isSharing <==> s.eglCore.Some?
    requires s.isSharing <==> s.videoClient.Some?
    ensures var st := Stopped(s);
            var r := StartVideoSharing(s, v);
            && st.videoClient.None? && st.eglCore.None? && st.nextHandle == s.nextHandle
            && r.eglCore == Some(s.nextHandle) && r.videoClient == Some(s.nextHandle + 1)
            && r.isSharing && r.adapterSource == Some(v) && r.nextHandle == s.nextHandle + 2
            && r.observers == s.observers && r.clientObserver == s.clientObserver
            && r.configuration == s.configuration
            && r.log == st.log + FreshStartCalls(s.configuration, s.nextHandle, s.nextHandle + 1, v)
                              + Announce(NotifyAll(s.observers, ContentShareStarted))
  {
    StartFromStopped(Stopped(s), v);
  }

  /** Appending a send-only, correctly configured batch keeps both log invariants. */
  lemma LogInvariantsAppend(log: seq<Action>, calls: seq<Action>, notes: seq<Action>,
                            cfg: MeetingSessionConfiguration)
    requires SendOnly(log) && StartsConfigured(log, cfg)
    requires SendOnly(calls + notes) && StartsConfigured(calls + notes, cfg)
    ensures SendOnly(log + calls + notes) && StartsConfigured(log + calls + notes, cfg)
  {
    assert log + calls + notes == log + (calls + notes);
    SendOnlyAppend(log, calls + notes);
  }

  /** The state before a start's creations is valid. */
  lemma StoppedValid(s: State)
    requires Valid(s)
    ensures Valid(Stopped(s)) && s.log <= Stopped(s).log
    ensures Notifications(Stopped(s).log[|s.log|..]) == []
  {
    StopVideoSharingEffect(s);
    if s.isSharing {
      StopValid(s);
    } else {
      assert s.log[|s.log|..] == [];
    }
  }

  /** A start keeps the state valid. */
  lemma StartValid(s: State, v: VideoSourceId)
    requires Valid(s)
    ensures Valid(StartVideoSharing(s, v))
  {
    var st := Stopped(s);
    var r := StartVideoSharing(s, v);
    var notes := NotifyAll(s.observers, ContentShareStarted);
    var calls := FreshStartCalls(s.configuration, s.nextHandle, s.nextHandle + 1, v);
    assert && r.eglCore == Some(s.nextHandle) && r.videoClient == Some(s.nextHandle + 1)
           && r.isSharing && r.nextHandle == s.nextHandle + 2
           && r.observers == s.observers && r.clientObserver == s.clientObserver
           && r.configuration == s.configuration
           && r.log == st.log + calls + Announce(notes) by {
      StartLog(s, v);
    }
    assert SendOnly(st.log) && StartsConfigured(st.log, s.configuration) && HandlesBelow(st.log, s.nextHandle) by {
      StoppedValid(s);
    }
    FreshStartLogValid(s.configuration, s.nextHandle, v, notes, st.log, r.log);
  }

  /** Appending a start's calls and notifications keeps every log invariant. */
  lemma FreshStartLogValid(cfg: MeetingSessionConfiguration, n: Handle, v: VideoSourceId,
                           notes: seq<Notification>, log: seq<Action>, whole: seq<Action>)
    requires SendOnly(log) && StartsConfigured(log, cfg) && HandlesBelow(log, n)
    requires whole == log + FreshStartCalls(cfg, n, n + 1, v) + Announce(notes)
    ensures SendOnly(whole) && StartsConfigured(whole, cfg) && HandlesBelow(whole, n + 2)
  {
    FreshStartLogInvariants(cfg, n, n + 1, v, notes);
    LogInvariantsAppend(log, FreshStartCalls(cfg, n, n + 1, v), Announce(notes), cfg);
    FreshStartHandles(cfg, n, v, notes, log, whole);
  }

  /** A start's appended calls name only its two new handles, both below the advanced counter. */
  lemma FreshStartHandles(cfg: MeetingSessionConfiguration, n: Handle, v: VideoSourceId,
                          notes: seq<Notification>, log: seq<Action>, whole: seq<Action>)
    requires HandlesBelow(log, n)
    requires whole == log + FreshStartCalls(cfg, n, n + 1, v) + Announce(notes)
    ensures HandlesBelow(whole, n + 2)
  {
    var calls := FreshStartCalls(cfg, n, n + 1, v);
    assert HandlesBelow(log, n + 2);
    assert HandlesBelow(calls, n + 2) by {
      forall i, h | 0 <= i < |calls| && h in HandlesOf(calls[i])
        ensures h < n + 2
      {
      }
    }
    AnnounceHandles(notes, n + 2);
    HandlesBelowAppend(log, calls, n + 2);
    HandlesBelowAppend(log + calls, Announce(notes), n + 2);
  }

  /** What a start logs before its creations: the stop's calls if it was sharing. */
  function PreStartCalls(s: State): seq<Action>
  {
    if s.isSharing then StopCalls(s) else []
  }

  /** A start's log as one concatenation: the stop's calls, the fresh calls, the notifications. */
  lemma StartLogFlat(s: State, v: VideoSourceId)
    requires s.isSharing <==> s.eglCore.Some?
    requires s.isSharing <==> s.videoClient.Some?
    ensures StartVideoSharing(s, v).log
            == s.log + PreStartCalls(s) + FreshStartCalls(s.configuration, s.nextHandle, s.nextHandle + 1, v)
               + Announce(NotifyAll(s.observers, ContentShareStarted))
  {
    StartLog(s, v);
    if !s.isSharing {
      assert s.log + PreStartCalls(s) == s.log;
    }
  }

  /** The notifications of a start: one "started" batch to the current subscribers. */
  lemma StartNotifications(s: State, v: VideoSourceId)
    requires s.isSharing <==> s.eglCore.Some?
    requires s.isSharing <==> s.videoClient.Some?
    ensures var r := StartVideoSharing(s, v);
            && s.log <= r.log
            && Notifications(r.log[|s.log|..]) == NotifyAll(s.observers, ContentShareStarted)
  {
    StartLogFlat(s, v);
    var r := StartVideoSharing(s, v);
    var pre := PreStartCalls(s);
    var calls := FreshStartCalls(s.configuration, s.nextHandle, s.nextHandle + 1, v);
    var notes := Announce(NotifyAll(s.observers, ContentShareStarted));
    LogPieces(s.log, pre, calls, notes, r.log);
    StopCallsShape(s);
    NotificationsOfCalls(pre);
    FreshStartCallsQuiet(s.configuration, s.nextHandle, s.nextHandle + 1, v);
    NotificationsAppend(pre, calls);
    NotificationsAppend(pre + calls, notes);
    NotificationsOfAnnounce(NotifyAll(s.observers, ContentShareStarted));
  }

  /** A start issues the service start, the source hand-over and sending on the new client. */
  lemma StartCallsIssued(s: State, v: VideoSourceId)
    requires s.isSharing <==> s.eglCore.Some?
    requires s.isSharing <==> s.videoClient.Some?
    ensures var r := StartVideoSharing(s, v);
            && s.log <= r.log
            && r.videoClient.Some?
            && (var delta := r.log[|s.log|..];
                var c := r.videoClient.value;
                && StartServiceV3(c, s.configuration.meetingId, s.configuration.credentials.joinToken,
                                  ContentShareFlags(), r.eglCore) in delta
                && SetExternalVideoSource(c, v, r.eglCore) in delta
                && SetSending(c, true) in delta)
  {
    StartLog(s, v);
    StartLogFlat(s, v);
    var r := StartVideoSharing(s, v);
    var pre := PreStartCalls(s);
    var calls := FreshStartCalls(s.configuration, s.nextHandle, s.nextHandle + 1, v);
    LogPieces(s.log, pre, calls, Announce(NotifyAll(s.observers, ContentShareStarted)), r.log);
    assert calls[3] in calls && calls[4] in calls && calls[5] in calls;
  }

  /**
   * `startVideoClient` within a start: the service start goes to the new
   * client right after it was made send-only, with the configured meeting
   * id and join token, the EGL core's context, and a flag word whose set
   * bits are exactly 6, 12 and 20.
   */
  lemma StartServiceCall(s: State, v: VideoSourceId, b: nat)
    requires s.isSharing <==> s.eglCore.Some?
    requires s.isSharing <==> s.videoClient.Some?
    requires b < 32
    ensures var r := StartVideoSharing(s, v);
            var k := |s.log| + |PreStartCalls(s)| + 3;
            && r.videoClient.Some? && k < |r.log|
            && r.log[k] == StartServiceV3(r.videoClient.value, s.configuration.meetingId,
                                          s.configuration.credentials.joinToken, ContentShareFlags(), r.eglCore)
            && r.log[k - 1] == SetReceiving(r.videoClient.value, false)
            && (FlagBit(r.log[k].flags, b) <==> b == 6 || b == 12 || b == 20)
  {
    var r := StartVideoSharing(s, v);
    var pre := PreStartCalls(s);
    var calls := FreshStartCalls(s.configuration, s.nextHandle, s.nextHandle + 1, v);
    StartLogFlat(s, v);
    assert r.eglCore == Some(s.nextHandle) && r.videoClient == Some(s.nextHandle + 1) by {
      StartLog(s, v);
    }
    LogPieces(s.log, pre, calls, Announce(NotifyAll(s.observers, ContentShareStarted)), r.log);
    assert r.log[|s.log|..][|pre| + 3] == calls[3] && r.log[|s.log|..][|pre| + 2] == calls[2];
    ContentShareFlagBits();
  }

  /**
   * `startVideoSharing(v)` from a valid state: afterwards the adapter holds
   * `v` and the controller is sharing through a newly created EGL core
   * and send-only client, whose handles no earlier log entry names; that client was started with the content-share
   * flags and the configured meeting id and join token, given the source
   * and set sending, in that order, after any stop of the previous
   * session. Subscribers get exactly one "started" each and no other
   * notification; the subscriber sets and configuration are untouched, and
   * the state stays valid.
   */
  lemma StartVideoSharingEffect(s: State, v: VideoSourceId, o: ObserverId)
    requires Valid(s)
    ensures var r := StartVideoSharing(s, v);
            && Valid(r)
            && r.isSharing && r.adapterSource == Some(v)
            && r.videoClient.Some? && r.eglCore.Some?
            && r.videoClient.value >= s.nextHandle && r.eglCore.value >= s.nextHandle
            && r.videoClient != r.eglCore
            && Unused(s.log, r.eglCore.value) && Unused(s.log, r.videoClient.value)
            && r.observers == s.observers && r.clientObserver == s.clientObserver
            && r.configuration == s.configuration
            && s.log <= r.log
            && r.log == s.log + PreStartCalls(s) + FreshStartCalls(s.configuration, s.nextHandle, s.nextHandle + 1, v)
                        + Announce(NotifyAll(s.observers, ContentShareStarted))
            && (var delta := r.log[|s.log|..];
                var c := r.videoClient.value;
                && StartServiceV3(c, s.configuration.meetingId, s.configuration.credentials.joinToken,
                                  ContentShareFlags(), r.eglCore) in delta
                && SetExternalVideoSource(c, v, r.eglCore) in delta
                && SetSending(c, true) in delta
                && Notifications(delta) == NotifyAll(s.observers, ContentShareStarted)
                && multiset(Notifications(delta))[Notification(o, ContentShareStarted)] ==
                   (if o in s.observers then 1 else 0))
  {
    StartLog(s, v);
    StartLogFlat(s, v);
    StartValid(s, v);
    StartNotifications(s, v);
    StartCallsIssued(s, v);
    NotifyAllOnce(s.observers, ContentShareStarted, o);
  }

  /**
   * Starting while sharing replaces the session: the old client is stopped
   * and destroyed and the old EGL core released, all before the new EGL
   * core and then the new client are created; the new ones are distinct
   * from the old ones.
   */
  lemma RestartStopsFirst(s: State, v: VideoSourceId)
    requires Valid(s) && s.isSharing
    ensures var r := StartVideoSharing(s, v);
            var oldClient := s.videoClient.value;
            var oldEgl := s.eglCore.value;
            && |r.log| >= |s.log| + 5
            && r.log[|s.log|..|s.log| + 5] ==
               [StopService(oldClient), Destroy(oldClient), ReleaseEglCore(oldEgl),
                CreateEglCore(r.eglCore.value), CreateVideoClient(r.videoClient.value)]
            && r.eglCore.value != oldEgl && r.eglCore.value != oldClient
            && r.videoClient.value != oldClient && r.videoClient.value != oldEgl
  {
    var r := StartVideoSharing(s, v);
    var calls := FreshStartCalls(s.configuration, s.nextHandle, s.nextHandle + 1, v);
    StartLogFlat(s, v);
    assert r.eglCore == Some(s.nextHandle) && r.videoClient == Some(s.nextHandle + 1) by {
      StartLog(s, v);
    }
    assert PreStartCalls(s) == [StopService(s.videoClient.value), Destroy(s.videoClient.value),
                                ReleaseEglCore(s.eglCore.value)] by {
      StopCallsShape(s);
    }
    LogHead(s.log, PreStartCalls(s), calls, Announce(NotifyAll(s.observers, ContentShareStarted)), r.log);
  }

  /** The first five entries after `base` of a log built as `base + pre + calls + notes`, for three `pre` and at least two `calls`. */
  lemma LogHead(base: seq<Action>, pre: seq<Action>, calls: seq<Action>, notes: seq<Action>, whole: seq<Action>)
    requires whole == base + pre + calls + notes && |pre| == 3 && |calls| >= 2
    ensures |whole| >= |base| + 5
    ensures whole[|base|..|base| + 5] == [pre[0], pre[1], pre[2], calls[0], calls[1]]
  {
    assert whole == base + (pre + calls + notes);
  }

  /** A start from a state that is not sharing begins by creating the EGL core; no stop is issued. */
  lemma FirstStartCreatesEglFirst(s: State, v: VideoSourceId)
    requires Valid(s) && !s.isSharing
    ensures var r := StartVideoSharing(s, v);
            && |r.log| >= |s.log| + 3
            && r.log[|s.log|..|s.log| + 3] ==
               [CreateEglCore(r.eglCore.value), CreateVideoClient(r.videoClient.value),
                SetReceiving(r.videoClient.value, false)]
            && forall i :: |s.log| <= i < |r.log| ==> !r.log[i].StopService? && !r.log[i].Destroy?
  {
    StartLog(s, v);
    var r := StartVideoSharing(s, v);
    var calls := FreshStartCalls(s.configuration, s.nextHandle, s.nextHandle + 1, v);
    var notes := Announce(NotifyAll(s.observers, ContentShareStarted));
    assert r.log == s.log + calls + notes;
    forall i | |s.log| <= i < |r.log|
      ensures !r.log[i].StopService? && !r.log[i].Destroy?
    {
      if i >= |s.log| + 6 {
        assert r.log[i] == notes[i - |s.log| - 6];
      } else {
        assert r.log[i] == calls[i - |s.log|];
      }
    }
  }

  /**
   * An observer subscribed through this controller is in both subscriber
   * sets, so one share is announced to it twice: once by
   * `startVideoSharing` itself and once more when the started client's
   * `didConnect` reaches the client observer.
   */
  lemma StartedDeliveredTwice(s: State, v: VideoSourceId, o: ObserverId, controlStatus: int)
    requires Valid(s) && o in s.observers && o in s.clientObserver.observers
    ensures var r := StartVideoSharing(s, v);
            var c := VideoClientObserver.DidConnect(r.clientObserver, r.videoClient, controlStatus);
            && s.log <= r.log && r.clientObserver.log <= c.log
            && multiset(Notifications(r.log[|s.log|..]))[Notification(o, ContentShareStarted)] == 1
            && multiset(Notifications(c.log[|r.clientObserver.log|..]))[Notification(o, ContentShareStarted)] == 1
  {
    StartVideoSharingEffect(s, v, o);
    var r := StartVideoSharing(s, v);
    VideoClientObserver.CallbackNotifications(r.clientObserver, r.videoClient, 0, controlStatus, o);
  }

  /** Subscribing keeps the state valid and forwards to the client observer; unsubscribing likewise. */
  lemma SubscriptionEffect(s: State, o: ObserverId)
    requires Valid(s)
    ensures var r := Subscribe(s, o);
            && Valid(r) && (forall x :: x in r.observers <==> x in s.observers || x == o)
            && (forall x :: x in r.clientObserver.observers <==> x in s.clientObserver.observers || x == o)
            && r.log == s.log && r.videoClient == s.videoClient && r.eglCore == s.eglCore
            && r.isSharing == s.isSharing
            && (o in s.observers && o in s.clientObserver.observers ==> r == s)
    ensures var r := Unsubscribe(s, o);
            && Valid(r) && (forall x :: x in r.observers <==> x in s.observers && x != o)
            && (forall x :: x in r.clientObserver.observers <==> x in s.clientObserver.observers && x != o)
            && r.log == s.log && r.videoClient == s.videoClient && r.eglCore == s.eglCore
            && r.isSharing == s.isSharing
            && (o !in s.observers && o !in s.clientObserver.observers ==> r == s)
  {
  }

  /** Every operation keeps the state valid. */
  lemma StepValid(s: State, op: Op)
    requires Valid(s)
    ensures Valid(Step(s, op))
  {
    match op
    case StartSharing(v) => StartValid(s, v);
    case StopSharing => StopValid(s);
    case SubscribeObserver(o) => SubscriptionEffect(s, o);
    case UnsubscribeObserver(o) => SubscriptionEffect(s, o);
  }

  /**
   * Across any sequence of start/stop/subscribe/unsubscribe calls from the
   * initial state: sharing, an EGL core and a video client are present
   * together or absent together, every client ever created was made
   * send-only, and every service start used the content-share flags and
   * the configured meeting id and join token.
   */
  lemma {:induction false} RunValid(s: State, ops: seq<Op>)
    requires Valid(s)
    ensures var r := Run(s, ops);
            && Valid(r)
            && (r.isSharing <==> r.eglCore.Some?) && (r.isSharing <==> r.videoClient.Some?)
            && SendOnly(r.log) && StartsConfigured(r.log, s.configuration)
    decreases |ops|
  {
    if |ops| > 0 {
      StepValid(s, ops[0]);
      RunValid(Step(s, ops[0]), ops[1..]);
    }
  }
}
