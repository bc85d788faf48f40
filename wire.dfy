/**
 * The wire protocol between the hub and its peers: the message envelope, the
 * action names, the action payloads, and how `encoding/json` fills the Go
 * structs from a decoded JSON value.
 *
 * A frame is taken to be already parsed as JSON text (or found not to be);
 * parsing the text is not part of this model. Decoding into a struct follows
 * the rules `encoding/json` applies to the fields used here: a missing key, a
 * `null` or a value of the wrong kind leaves the field at its zero value.
 */
module Wire {
  import opened Outcomes

  /** A JSON value; numbers and arrays, which no field here accepts, are `JOther`. */
  datatype Json =
    | JNull
    | JBool(b: bool)
    | JString(str: string)
    | JObject(fields: map<string, Json>)
    | JOther

  /** One WebSocket text frame: JSON text, or bytes that are not JSON. */
  datatype Frame = Unparsable | Parsed(json: Json)

  /** The envelope of every frame; replies carry the request's `id`, pushes an empty one. */
  datatype Message = Message(id: string, action: string, payload: Json)

  const RegisterWebClientAction: string := "registerWebClient"
  const RegisterHostClientAction: string := "registerHostClient"
  const PageCommandFromHostAction: string := "pageCommandFromHost"
  const PageEventFromWebAction: string := "pageEventFromWeb"
  const PageEventToHostAction: string := "pageEventToHost"

  /** The error text of a register reply for a page the registry lacks. */
  const PageNotFound: string := "Page not found or access denied"

  // ---------------------------------------------------------------------------
  // Field decoding
  // ---------------------------------------------------------------------------

  /** The string a struct field gets from key `key` of `j`. */
  function StringField(j: Json, key: string): string
  {
    if j.JObject? && key in j.fields && j.fields[key].JString? then j.fields[key].str else ""
  }

  /** The bool a struct field gets from key `key` of `j`. */
  function BoolField(j: Json, key: string): bool
  {
    j.JObject? && key in j.fields && j.fields[key].JBool? && j.fields[key].b
  }

  /** Key `key` of object `j` is absent, null or a string: a string field decodes without error. */
  predicate StringFieldFits(j: Json, key: string)
    requires j.JObject?
  {
    key !in j.fields || j.fields[key].JNull? || j.fields[key].JString?
  }

  // ---------------------------------------------------------------------------
  // The envelope
  // ---------------------------------------------------------------------------

  /**
   * `json.Unmarshal` of a frame into a Message: text that is not JSON, a value
   * that is neither an object nor null, or an `id`/`action` that is not a
   * string is an error; `null` decodes to the empty envelope; a missing
   * payload reads as `null`.
   */
  function DecodeMessage(frame: Frame): (r: Result<Message>)
    ensures r.Ok? <==>
      frame.Parsed? &&
      (frame.json.JNull? ||
       (frame.json.JObject? && StringFieldFits(frame.json, "id") && StringFieldFits(frame.json, "action")))
    ensures frame.Parsed? && frame.json.JNull? ==> r == Ok(Message("", "", JNull))
  {
    match frame
    case Unparsable => Err("invalid character in frame")
    case Parsed(j) =>
      if j.JNull? then Ok(Message("", "", JNull))
      else if !j.JObject? then Err("cannot unmarshal non-object into Message")
      else if !StringFieldFits(j, "id") || !StringFieldFits(j, "action") then
        Err("cannot unmarshal non-string into Message field")
      else
        Ok(Message(StringField(j, "id"), StringField(j, "action"),
                   if "payload" in j.fields then j.fields["payload"] else JNull))
  }

  /** `json.Marshal` of an envelope; decoding the result gives the envelope back. */
  function EncodeMessage(m: Message): (j: Json)
    ensures DecodeMessage(Parsed(j)) == Ok(m)
  {
    JObject(map["id" := JString(m.id), "action" := JString(m.action), "payload" := m.payload])
  }

  /** The action an envelope decoded from `frame` names ("" when it does not decode). */
  function FrameAction(frame: Frame): string
  {
    match DecodeMessage(frame)
    case Ok(m) => m.action
    case Err(_) => ""
  }

  // ---------------------------------------------------------------------------
  // Payloads
  // ---------------------------------------------------------------------------

  /** Payload of registerWebClient and registerHostClient. */
  datatype RegisterRequest = RegisterRequest(pageName: string, isApp: bool)

  /** Reply payload of both register actions. */
  datatype RegisterResponse = RegisterResponse(sessionID: string, error: string)

  /** Payload of pageCommandFromHost. */
  datatype CommandRequest = CommandRequest(pageName: string, sessionID: string, command: string)

  /** Reply payload of pageCommandFromHost. */
  datatype CommandResponse = CommandResponse(result: string, error: string)

  /** Payload of pageEventFromWeb, and of the pageEventToHost push built from it. */
  datatype PageEvent = PageEvent(pageName: string, sessionID: string, eventTarget: string, eventName: string, eventData: string)

  function DecodeRegisterRequest(j: Json): RegisterRequest
  {
    RegisterRequest(StringField(j, "pageName"), BoolField(j, "isApp"))
  }

  function EncodeRegisterRequest(r: RegisterRequest): (j: Json)
    ensures DecodeRegisterRequest(j) == r
  {
    JObject(map["pageName" := JString(r.pageName), "isApp" := JBool(r.isApp)])
  }

  function DecodeRegisterResponse(j: Json): RegisterResponse
  {
    RegisterResponse(StringField(j, "sessionID"), StringField(j, "error"))
  }

  function EncodeRegisterResponse(r: RegisterResponse): (j: Json)
    ensures DecodeRegisterResponse(j) == r
  {
    JObject(map["sessionID" := JString(r.sessionID), "error" := JString(r.error)])
  }

  function DecodeCommandRequest(j: Json): CommandRequest
  {
    CommandRequest(StringField(j, "pageName"), StringField(j, "sessionID"), StringField(j, "command"))
  }

  function EncodeCommandRequest(r: CommandRequest): (j: Json)
    ensures DecodeCommandRequest(j) == r
  {
    JObject(map["pageName" := JString(r.pageName), "sessionID" := JString(r.sessionID),
                "command" := JString(r.command)])
  }

  function DecodeCommandResponse(j: Json): CommandResponse
  {
    CommandResponse(StringField(j, "result"), StringField(j, "error"))
  }

  function EncodeCommandResponse(r: CommandResponse): (j: Json)
    ensures DecodeCommandResponse(j) == r
  {
    JObject(map["result" := JString(r.result), "error" := JString(r.error)])
  }

  function DecodePageEvent(j: Json): PageEvent
  {
    PageEvent(StringField(j, "pageName"), StringField(j, "sessionID"), StringField(j, "eventTarget"),
              StringField(j, "eventName"), StringField(j, "eventData"))
  }

  function EncodePageEvent(e: PageEvent): (j: Json)
    ensures DecodePageEvent(j) == e
  {
    JObject(map["pageName" := JString(e.pageName), "sessionID" := JString(e.sessionID),
                "eventTarget" := JString(e.eventTarget), "eventName" := JString(e.eventName),
                "eventData" := JString(e.eventData)])
  }

  // ---------------------------------------------------------------------------
  // Replies the hub sends
  // ---------------------------------------------------------------------------

  /** The reply to a register request: the request's ID, no action, the response payload. */
  function RegisterReply(requestID: string, response: RegisterResponse): (m: Message)
    ensures m.id == requestID && m.action == ""
    ensures DecodeRegisterResponse(m.payload) == response
  {
    Message(requestID, "", EncodeRegisterResponse(response))
  }

  /** The reply to every page command: the request's ID and the fixed result "Good". */
  function CommandReply(requestID: string): (m: Message)
    ensures m.id == requestID && m.action == ""
    ensures DecodeCommandResponse(m.payload) == CommandResponse("Good", "")
  {
    Message(requestID, "", EncodeCommandResponse(CommandResponse("Good", "")))
  }
}
