/**
 * The calls the content-share components make on their collaborators (the
 * native video client, the EGL core factory, the video-client state
 * controller) and the notifications they deliver to observers, recorded in
 * the order they happen.
 */
module Collaborators {
  import opened Optional
  import opened ObserverRegistry
  import opened Turn

  /** Identity of an object produced by a factory (an EGL core or a video client). */
  type Handle = nat

  /** Identity of a `VideoSource` handed to content share. */
  type VideoSourceId = nat

  /** One entry of a component's action log. */
  datatype Action =
    | Notify(notification: Notification)
    | CreateEglCore(egl: Handle)
    | ReleaseEglCore(egl: Handle)
    | CreateVideoClient(client: Handle)
    | SetReceiving(client: Handle, receiving: bool)
    | StartServiceV3(client: Handle, meetingId: string, joinToken: string, flags: bv32, eglContext: Option<Handle>)
    | SetExternalVideoSource(client: Handle, source: VideoSourceId, eglContext: Option<Handle>)
    | SetSending(client: Handle, sending: bool)
    | StopService(client: Handle)
    | Destroy(client: Handle)
    | StateControllerStart
    | StateControllerStop
    | BindLifecycleHandler
    | SubscribeToVideoClientState
    | UpdateTurnCredentials(client: Handle, update: TurnUpdate)

  /** `VIDEO_CLIENT_FLAG_ENABLE_USE_HW_DECODE_AND_RENDER` (Kotlin `1 shl 6`). */
  const FlagEnableUseHwDecodeAndRender: bv32 := 1 << 6
  /** `VIDEO_CLIENT_FLAG_ENABLE_TWO_SIMULCAST_STREAMS` (Kotlin `1 shl 12`). */
  const FlagEnableTwoSimulcastStreams: bv32 := 1 << 12
  /** `VIDEO_CLIENT_FLAG_DISABLE_CAPTURER` (Kotlin `1 shl 20`). */
  const FlagDisableCapturer: bv32 := 1 << 20

  /** The flag word content share passes to `startServiceV3`, built by or-ing onto 0. */
  function ContentShareFlags(): bv32
  {
    0 | FlagEnableUseHwDecodeAndRender | FlagEnableTwoSimulcastStreams | FlagDisableCapturer
  }

  /** Whether bit `b` of a 32-bit Kotlin `Int` flag word is set. */
  predicate FlagBit(word: bv32, b: nat)
    requires b < 32
  {
    (word >> b) & 1 == 1
  }

  /** The content-share flag word has exactly bits 6, 12 and 20 set. */
  lemma ContentShareFlagBits()
    ensures forall b: nat :: b < 32 ==> (FlagBit(ContentShareFlags(), b) <==> b == 6 || b == 12 || b == 20)
  {
    assert ContentShareFlags() == 0x0010_1040;
  }

  /** The factory handles an action names: the EGL core or video client it acts on and any EGL context it passes. */
  function HandlesOf(a: Action): set<Handle>
  {
    match a
    case CreateEglCore(e) => {e}
    case ReleaseEglCore(e) => {e}
    case CreateVideoClient(c) => {c}
    case SetReceiving(c, _) => {c}
    case StartServiceV3(c, _, _, _, ctx) => {c} + ContextHandles(ctx)
    case SetExternalVideoSource(c, _, ctx) => {c} + ContextHandles(ctx)
    case SetSending(c, _) => {c}
    case StopService(c) => {c}
    case Destroy(c) => {c}
    case UpdateTurnCredentials(c, _) => {c}
    case _ => {}
  }

  function ContextHandles(ctx: Option<Handle>): set<Handle>
  {
    if ctx.Some? then {ctx.value} else {}
  }

  /** Every handle the log names lies below `n`: the factories have not yet handed out `n` or anything above. */
  ghost predicate HandlesBelow(log: seq<Action>, n: Handle)
  {
    forall i, h :: 0 <= i < |log| && h in HandlesOf(log[i]) ==> h < n
  }

  /** No action of the log names handle `h`. */
  ghost predicate Unused(log: seq<Action>, h: Handle)
  {
    forall i :: 0 <= i < |log| ==> h !in HandlesOf(log[i])
  }

  lemma HandlesBelowAppend(a: seq<Action>, b: seq<Action>, n: Handle)
    requires HandlesBelow(a, n) && HandlesBelow(b, n)
    ensures HandlesBelow(a + b, n)
  {
    forall i, h | 0 <= i < |a + b| && h in HandlesOf((a + b)[i])
      ensures h < n
    {
      if i < |a| {
        assert (a + b)[i] == a[i];
      } else {
        assert (a + b)[i] == b[i - |a|];
      }
    }
  }

  /** A batch of deliveries names no handle. */
  lemma AnnounceHandles(ns: seq<Notification>, n: Handle)
    ensures HandlesBelow(Announce(ns), n)
  {
  }

  /** The observer-visible part of a log: its notifications, in order. */
  function Notifications(log: seq<Action>): (ns: seq<Notification>)
    ensures |ns| <= |log|
    ensures forall n :: n in ns <==> Notify(n) in log
  {
    if |log| == 0 then []
    else (if log[0].Notify? then [log[0].notification] else []) + Notifications(log[1..])
  }

  /** Notifications of a concatenated log are the concatenated notifications. */
  lemma {:induction false} NotificationsAppend(a: seq<Action>, b: seq<Action>)
    ensures Notifications(a + b) == Notifications(a) + Notifications(b)
    decreases |a|
  {
    if |a| > 0 {
      NotificationsAppend(a[1..], b);
      assert (a + b)[1..] == a[1..] + b;
    } else {
      assert a + b == b;
    }
  }

  /** A batch of deliveries as log entries. */
  function Announce(ns: seq<Notification>): (log: seq<Action>)
    ensures |log| == |ns|
    ensures forall i :: 0 <= i < |ns| ==> log[i] == Notify(ns[i])
  {
    if |ns| == 0 then [] else [Notify(ns[0])] + Announce(ns[1..])
  }

  /** Announcing deliveries and reading them back off the log loses nothing. */
  lemma {:induction false} NotificationsOfAnnounce(ns: seq<Notification>)
    ensures Notifications(Announce(ns)) == ns
    decreases |ns|
  {
    if |ns| > 0 {
      NotificationsOfAnnounce(ns[1..]);
      assert Announce(ns)[1..] == Announce(ns[1..]);
    }
  }

  /** A log without notifications contributes none. */
  lemma {:induction false} NotificationsOfCalls(log: seq<Action>)
    requires forall i :: 0 <= i < |log| ==> !log[i].Notify?
    ensures Notifications(log) == []
    decreases |log|
  {
    if |log| > 0 {
      NotificationsOfCalls(log[1..]);
    }
  }

  /** Reading back the pieces of a log built as `base + pre + calls + notes`. */
  lemma LogPieces(base: seq<Action>, pre: seq<Action>, calls: seq<Action>, notes: seq<Action>, whole: seq<Action>)
    requires whole == base + pre + calls + notes
    ensures base <= whole && whole[|base|..] == pre + calls + notes
    ensures forall i :: 0 <= i < |pre| ==> whole[|base|..][i] == pre[i]
    ensures forall i :: 0 <= i < |calls| ==> whole[|base|..][|pre| + i] == calls[i]
  {
    assert whole == base + (pre + calls + notes);
  }

  /** Notifications of consecutive log extensions add up. */
  lemma NotificationsSplit(a: seq<Action>, b: seq<Action>, c: seq<Action>)
    requires a <= b && b <= c
    ensures Notifications(c[|a|..]) == Notifications(b[|a|..]) + Notifications(c[|b|..])
  {
    assert c[|a|..] == b[|a|..] + c[|b|..];
    NotificationsAppend(b[|a|..], c[|b|..]);
  }
}
