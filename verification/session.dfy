/** The meeting-session configuration a content-share session is started from. */
module Session {

  /** `MeetingSessionCredentials`. */
  datatype MeetingSessionCredentials = MeetingSessionCredentials(
    attendeeId: string,
    externalUserId: string,
    joinToken: string)

  /**
   * `MeetingSessionURLs`: passed through unchanged by everything modelled
   * here, so only its string fields are kept.
   */
  datatype MeetingSessionUrls = MeetingSessionUrls(
    audioFallbackUrl: string,
    audioHostUrl: string,
    signalingUrl: string,
    turnControlUrl: string)

  /** `MeetingSessionConfiguration`. */
  datatype MeetingSessionConfiguration = MeetingSessionConfiguration(
    meetingId: string,
    credentials: MeetingSessionCredentials,
    urls: MeetingSessionUrls)
}
