/**
 * Outcome codes carried by content-share "stopped" notifications, and the
 * meeting-session status codes the video session reports them from.
 */
module StatusCodes {

  /** `ContentShareStatusCode`: a closed enumeration of two values. */
  datatype ContentShareStatusCode = OK | VideoServiceFailed

  /** `ContentShareStatus`: the value handed to `onContentShareStopped`. */
  datatype ContentShareStatus = ContentShareStatus(statusCode: ContentShareStatusCode)

  /** `isFailed`: anything other than `OK`. */
  predicate IsFailed(code: ContentShareStatusCode)
  {
    code != OK
  }

  /** `isTerminal`: the video connection is unrecoverable. */
  predicate IsTerminal(code: ContentShareStatusCode)
  {
    code == VideoServiceFailed
  }

  /** The enumeration has exactly the two values, and they differ. */
  lemma TwoCodes(code: ContentShareStatusCode)
    ensures code == OK || code == VideoServiceFailed
    ensures OK != VideoServiceFailed
  {
  }

  /** How each code classifies, and that the two predicates agree on every code. */
  lemma Classification(code: ContentShareStatusCode)
    ensures !IsFailed(OK) && !IsTerminal(OK)
    ensures IsFailed(VideoServiceFailed) && IsTerminal(VideoServiceFailed)
    ensures IsFailed(code) <==> IsTerminal(code)
  {
  }

  /**
   * `MeetingSessionStatusCode` as the video session reports it. Only the
   * distinction between `OK` and every other code matters to content share;
   * the other codes are kept by name.
   */
  datatype MeetingSessionStatusCode = SessionOK | SessionOther(name: string)

  /** `MeetingSessionStatus`: the value passed to the video-session callbacks. */
  datatype MeetingSessionStatus = MeetingSessionStatus(statusCode: MeetingSessionStatusCode)

  /**
   * The content-share outcome reported for a stopped video session: `OK` for
   * a clean stop, `VideoServiceFailed` for any other session status.
   */
  function StoppedStatus(session: MeetingSessionStatus): (code: ContentShareStatusCode)
    ensures code == OK <==> session.statusCode == SessionOK
    ensures IsFailed(code) <==> session.statusCode != SessionOK
  {
    if session.statusCode == SessionOK then OK else VideoServiceFailed
  }
}
