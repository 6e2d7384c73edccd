/** The inbound message of the realtime session, `RealtimeMessage` (a Gson-decoded JSON object). */
module Messages {
  import opened Wrappers

  /**
   * `kind` is the JSON `type` field ("transcription", "phishing_alert", "error", ...);
   * the other fields are optional in the JSON and null when absent.
   */
  datatype RealtimeMessage = RealtimeMessage(
    kind: string,
    text: Option<string>,
    alertMessage: Option<string>,
    confidence: Option<real>)
}
