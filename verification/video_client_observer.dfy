/**
 * `DefaultContentShareVideoClientObserver`: turns the native video client's
 * callbacks into content-share notifications for its subscribers, and
 * answers the client's TURN-credential requests.
 */
module VideoClientObserver {
  import opened Optional
  import opened StatusCodes
  import opened ObserverRegistry
  import opened Turn
  import opened Collaborators

  /** The observer's subscribers, its fixed TURN parameters, and what it has done so far. */
  datatype State = State(
    observers: seq<ObserverId>,
    turnRequestParams: TurnRequestParams,
    log: seq<Action>)

  /** The native client as a TURN request sees it: its identity and whether it is still active. */
  datatype VideoClientView = VideoClientView(handle: Handle, isActive: bool)

  ghost predicate Valid(s: State)
  {
    Distinct(s.observers)
  }

  function Init(params: TurnRequestParams): (s: State)
    ensures Valid(s) && s.observers == [] && s.log == []
  {
    State([], params, [])
  }

  /** `subscribeToVideoClientStateChange`. */
  function Subscribe(s: State, o: ObserverId): (r: State)
    ensures forall x :: x in r.observers <==> x in s.observers || x == o
    ensures o in s.observers ==> r == s
    ensures r.turnRequestParams == s.turnRequestParams && r.log == s.log
    ensures Valid(s) ==> Valid(r)
  {
    s.(observers := Add(s.observers, o))
  }

  /** `unsubscribeFromVideoClientStateChange`. */
  function Unsubscribe(s: State, o: ObserverId): (r: State)
    ensures forall x :: x in r.observers <==> x in s.observers && x != o
    ensures o !in s.observers ==> r == s
    ensures r.turnRequestParams == s.turnRequestParams && r.log == s.log
    ensures Valid(s) ==> Valid(r)
  {
    s.(observers := Remove(s.observers, o))
  }

  /** Deliver one event to every current subscriber. */
  function Broadcast(s: State, e: ContentShareEvent): (r: State)
    ensures r.observers == s.observers && r.turnRequestParams == s.turnRequestParams
    ensures s.log <= r.log
    ensures Notifications(r.log[|s.log|..]) == NotifyAll(s.observers, e)
    ensures |r.log| == |s.log| + |s.observers|
  {
    var r := s.(log := s.log + Announce(NotifyAll(s.observers, e)));
    assert r.log[|s.log|..] == Announce(NotifyAll(s.observers, e));
    NotificationsOfAnnounce(NotifyAll(s.observers, e));
    r
  }

  /** `isConnecting`: only logs. */
  function IsConnecting(s: State, client: Option<Handle>): State
  {
    s
  }

  /** `didConnect`: content share has started. */
  function DidConnect(s: State, client: Option<Handle>, controlStatus: int): State
  {
    Broadcast(s, ContentShareStarted)
  }

  /** `didFail`: whatever the status, the video service failed. */
  function DidFail(s: State, client: Option<Handle>, status: int, controlStatus: int): State
  {
    Broadcast(s, ContentShareStopped(ContentShareStatus(VideoServiceFailed)))
  }

  /** `didStop`: a clean stop. */
  function DidStop(s: State, client: Option<Handle>): State
  {
    Broadcast(s, ContentShareStopped(ContentShareStatus(OK)))
  }

  /**
   * `requestTurnCreds`, with the body of its `launch` block taken as one
   * step: `response` is what the TURN request returned, and `client` is
   * the client the request was made for (`None` for a null client), with
   * its `isActive` as read after the response arrived.
   */
  function RequestTurnCreds(s: State, client: Option<VideoClientView>, response: Option<TurnCredentials>,
                            urlRewriter: string -> string): State
  {
    var isActive := client.Some? && client.value.isActive;
    match client
    case None => s
    case Some(c) =>
      var update := TurnUpdateFor(response, isActive, s.turnRequestParams.signalingUrl, urlRewriter);
      s.(log := s.log + [UpdateTurnCredentials(c.handle, update)])
  }

  /**
   * The three connection callbacks each append exactly one batch of
   * notifications and nothing else: every subscriber hears the mapped event
   * once, non-subscribers hear nothing, and no other event is delivered.
   */
  lemma CallbackNotifications(s: State, client: Option<Handle>, status: int, controlStatus: int, o: ObserverId)
    requires Valid(s)
    ensures var e := ContentShareStarted;
            var r := DidConnect(s, client, controlStatus);
            && r.observers == s.observers && s.log <= r.log
            && Notifications(r.log[|s.log|..]) == NotifyAll(s.observers, e)
            && multiset(Notifications(r.log[|s.log|..]))[Notification(o, e)] == (if o in s.observers then 1 else 0)
            && |r.log| - |s.log| == |s.observers|
    ensures var e := ContentShareStopped(ContentShareStatus(VideoServiceFailed));
            var r := DidFail(s, client, status, controlStatus);
            && r.observers == s.observers && s.log <= r.log
            && Notifications(r.log[|s.log|..]) == NotifyAll(s.observers, e)
            && multiset(Notifications(r.log[|s.log|..]))[Notification(o, e)] == (if o in s.observers then 1 else 0)
            && |r.log| - |s.log| == |s.observers|
    ensures var e := ContentShareStopped(ContentShareStatus(OK));
            var r := DidStop(s, client);
            && r.observers == s.observers && s.log <= r.log
            && Notifications(r.log[|s.log|..]) == NotifyAll(s.observers, e)
            && multiset(Notifications(r.log[|s.log|..]))[Notification(o, e)] == (if o in s.observers then 1 else 0)
            && |r.log| - |s.log| == |s.observers|
  {
    var started := ContentShareStarted;
    var failed := ContentShareStopped(ContentShareStatus(VideoServiceFailed));
    var stopped := ContentShareStopped(ContentShareStatus(OK));
    NotificationsOfAnnounce(NotifyAll(s.observers, started));
    NotificationsOfAnnounce(NotifyAll(s.observers, failed));
    NotificationsOfAnnounce(NotifyAll(s.observers, stopped));
    NotifyAllOnce(s.observers, started, o);
    NotifyAllOnce(s.observers, failed, o);
    NotifyAllOnce(s.observers, stopped, o);
  }

  /** `isConnecting` changes nothing and notifies nobody. */
  lemma IsConnectingSilent(s: State, client: Option<Handle>)
    ensures IsConnecting(s, client) == s
  {
  }

  /**
   * A TURN request for a null client does nothing; for a present client it
   * sends exactly one `updateTurnCredentials` to that client — never
   * dropped — which is "feature on" with the response's data and the
   * configured signaling URL exactly when there is a response and the client
   * is active, and the all-null "CCP failure" update otherwise.
   */
  lemma RequestTurnCredsEffect(s: State, client: Option<VideoClientView>, response: Option<TurnCredentials>,
                               urlRewriter: string -> string)
    ensures var r := RequestTurnCreds(s, client, response, urlRewriter);
            && r.observers == s.observers
            && r.turnRequestParams == s.turnRequestParams
            && (client.None? ==> r == s)
            && (client.Some? ==>
                  && |r.log| == |s.log| + 1 && r.log[..|s.log|] == s.log
                  && r.log[|s.log|].UpdateTurnCredentials?
                  && r.log[|s.log|].client == client.value.handle
                  && var u := r.log[|s.log|].update;
                     && (u.status == TurnFeatureOn <==> response.Some? && client.value.isActive)
                     && (u.status == TurnFeatureOn ==>
                           && u.username == Some(response.value.username)
                           && u.password == Some(response.value.password)
                           && u.ttl == Some(response.value.ttl)
                           && u.signalingUrl == Some(s.turnRequestParams.signalingUrl)
                           && u.uris == Some(RewriteUris(response.value.uris, urlRewriter)))
                     && (u.status == TurnStatusCcpFailure ==>
                           u == TurnUpdate(None, None, None, None, None, TurnStatusCcpFailure)))
  {
  }

  /** Subscribing an observer twice still gives it each later event only once. */
  lemma DuplicateSubscribeNotifiesOnce(s: State, o: ObserverId, controlStatus: int)
    requires Valid(s)
    ensures var r := DidConnect(Subscribe(Subscribe(s, o), o), None, controlStatus);
            multiset(Notifications(r.log[|s.log|..]))[Notification(o, ContentShareStarted)] == 1
  {
    var s2 := Subscribe(Subscribe(s, o), o);
    AddIdempotent(s.observers, o);
    CallbackNotifications(s2, None, 0, controlStatus, o);
  }
}
