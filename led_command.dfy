/**
 * The LED command sent to the device: `send_led_command(state)` connects,
 * publishes the JSON object `{"led": state}` on the command topic and
 * disconnects; any exception is reported on screen and swallowed.
 */
module LedCommand {
  import opened Wrappers
  import opened JsonValue

  /** The LED state the two buttons request. */
  const LedOn: int := 1
  const LedOff: int := 0

  /** The object handed to `json.dumps` before publishing. */
  function LedPayload(state: int): (p: Json)
    ensures p.JObject? && p.fields.Keys == {"led"}
  {
    JObject(map["led" := JInt(state)])
  }

  /** What a receiver reads back from a command object: its integer `led` entry, if any. */
  function CommandedState(cmd: Json): (s: Option<int>)
    ensures s.Some? ==> cmd.JObject? && "led" in cmd.fields && cmd.fields["led"] == JInt(s.value)
  {
    match cmd
    case JObject(fields) =>
      if "led" in fields && fields["led"].JInt? then Some(fields["led"].i) else None
    case _ => None
  }

  /** The payload carries exactly the requested state, so different states give different payloads. */
  lemma LedPayloadRoundTrip(state: int, other: int)
    ensures CommandedState(LedPayload(state)) == Some(state)
    ensures LedPayload(state) == LedPayload(other) ==> state == other
  {
  }

  /**
   * The message that reaches the broker: the payload when the connection
   * succeeds, nothing when it raises (the error is only shown, never retried).
   */
  function SendLedCommand(state: int, connected: bool): (published: Option<Json>)
    ensures published.Some? <==> connected
    ensures published.Some? ==> published.value == LedPayload(state)
    ensures published.Some? ==> CommandedState(published.value) == Some(state)
  {
    if connected then Some(LedPayload(state)) else None
  }
}
