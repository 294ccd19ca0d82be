/**
 * The TURN-credential renewal decision of the content-share video-client
 * observer: what `updateTurnCredentials` is called with once the TURN
 * request has come back. The HTTP exchange itself is an input: its outcome
 * arrives as an optional `TurnCredentials`.
 */
module Turn {
  import opened Optional

  /** `TURNCredentials` as parsed from a successful response; URIs may be null. */
  datatype TurnCredentials = TurnCredentials(
    username: string,
    password: string,
    ttl: string,
    uris: seq<Option<string>>)

  /** `TURNRequestParams`: fixed when the observer is constructed. */
  datatype TurnRequestParams = TurnRequestParams(
    meetingId: string,
    signalingUrl: string,
    turnControlUrl: string,
    joinToken: string)

  /** `VideoClient.VideoClientTurnStatus` values used by content share. */
  datatype TurnStatus = TurnFeatureOn | TurnStatusCcpFailure

  /** The arguments of one `updateTurnCredentials` call (Kotlin nulls as `None`). */
  datatype TurnUpdate = TurnUpdate(
    username: Option<string>,
    password: Option<string>,
    ttl: Option<string>,
    uris: Option<seq<Option<string>>>,
    signalingUrl: Option<string>,
    status: TurnStatus)

  /** The TURN URIs passed through the URL rewriter one by one, absent entries left absent. */
  function RewriteUris(uris: seq<Option<string>>, urlRewriter: string -> string): (r: seq<Option<string>>)
    ensures |r| == |uris|
    ensures forall i :: 0 <= i < |uris| ==> (r[i].None? <==> uris[i].None?)
    ensures forall i :: 0 <= i < |uris| && uris[i].Some? ==> r[i] == Some(urlRewriter(uris[i].value))
  {
    if |uris| == 0 then []
    else
      var head := match uris[0] case None => None case Some(u) => Some(urlRewriter(u));
      [head] + RewriteUris(uris[1..], urlRewriter)
  }

  /**
   * The update sent after a TURN request: the response passed through with
   * rewritten URIs and status "feature on" exactly when there is a response
   * and the client is still active; otherwise every field null and status
   * "CCP failure".
   */
  function TurnUpdateFor(response: Option<TurnCredentials>, isActive: bool, signalingUrl: string,
                         urlRewriter: string -> string): (u: TurnUpdate)
    ensures u.status == TurnFeatureOn <==> response.Some? && isActive
    ensures u.status == TurnFeatureOn ==>
              && u.username == Some(response.value.username)
              && u.password == Some(response.value.password)
              && u.ttl == Some(response.value.ttl)
              && u.signalingUrl == Some(signalingUrl)
              && u.uris.Some?
              && |u.uris.value| == |response.value.uris|
              && (forall i :: 0 <= i < |u.uris.value| ==>
                    u.uris.value[i] == match response.value.uris[i]
                                       case None => None
                                       case Some(uri) => Some(urlRewriter(uri)))
    ensures u.status == TurnStatusCcpFailure ==>
              u == TurnUpdate(None, None, None, None, None, TurnStatusCcpFailure)
  {
    if response.Some? && isActive then
      var creds := response.value;
      TurnUpdate(Some(creds.username), Some(creds.password), Some(creds.ttl),
                 Some(RewriteUris(creds.uris, urlRewriter)), Some(signalingUrl), TurnFeatureOn)
    else
      TurnUpdate(None, None, None, None, None, TurnStatusCcpFailure)
  }
}
