/**
 * The line protocol between the host and its platform worker: one JSON
 * envelope per line, `{version, type, id, timestamp, payload}`, the payload
 * records each message type carries, and the checks the host applies to an
 * incoming line and to a `message.new` payload.
 *
 * Decoding a line into a JSON value is serde_json's parser, which is not part
 * of this model: it is passed in as `parse`. Decoding a JSON object into an
 * envelope or a payload record follows serde's derived rules for the fields
 * the records declare (required fields, `#[serde(default)]` fields, and
 * `Option` fields that accept `null`). Only the object form is decoded: the
 * array form that derived structs also accept decodes to nothing here, and an
 * object is a map, so a duplicated member is already collapsed by `parse`.
 */
module Ipc {
  import opened Base
  import opened Text
  import opened Json

  const ProtocolVersion: string := "1.0"
  const MaxRawMessageLen: nat := 100000
  const MaxMessageTextLen: nat := 10000

  const ErrTooLarge: string := "Agent 消息过大"
  const ErrMalformed: string := "Agent 消息格式错误"
  const ErrVersion: string := "IPC 协议版本不匹配"
  const ErrMissingField: string := "IPC 消息缺少必要字段"
  const ErrEmptyChatId: string := "chat_id 不能为空"
  const ErrEmptyText: string := "消息内容为空"
  const ErrTextTooLong: string := "消息内容过长"

  /** `kind` is the wire field `type`. */
  datatype Envelope = Envelope(version: string, kind: string, id: string, timestamp: nat, payload: Json)

  datatype AgentReadyPayload = AgentReadyPayload(
    platform: string, agentVersion: string, capabilities: seq<string>, supportsClipboardRestore: bool)
  datatype AgentStatusPayload = AgentStatusPayload(state: string, detail: string)
  datatype AgentErrorPayload = AgentErrorPayload(code: string, message: string, recoverable: bool)
  datatype MessageNewPayload = MessageNewPayload(
    chatId: string, chatTitle: string, isGroup: bool, senderName: string,
    text: string, timestamp: nat, msgId: Option<string>)
  datatype InputWritePayload = InputWritePayload(
    chatId: string, text: string, mode: Option<string>, restoreClipboard: Option<bool>)
  datatype InputResultPayload = InputResultPayload(ok: bool, error: string)
  datatype EventAckPayload = EventAckPayload(ackId: string, ok: bool, error: string)

  // ---------------------------------------------------------------- field decoding

  /** A required string field. */
  function ReqStr(j: Json, key: string): Option<string> {
    AsStr(Get(j, key))
  }

  /** A required boolean field. */
  function ReqBool(j: Json, key: string): Option<bool> {
    AsBool(Get(j, key))
  }

  /** A required `u64` field. */
  function ReqU64(j: Json, key: string): Option<nat> {
    AsU64(Get(j, key))
  }

  /** A `#[serde(default)] String` field: absent means "", present must be a string. */
  function DefaultStr(j: Json, key: string): Option<string> {
    if Has(j, key) then AsStr(Get(j, key)) else Some("")
  }

  /** A `#[serde(default)] Option<String>` field: absent or null means `None`. */
  function OptStr(j: Json, key: string): Option<Option<string>> {
    match Get(j, key)
    case JNull => Some(None)
    case JStr(s) => Some(Some(s))
    case _ => None
  }

  function OptBool(j: Json, key: string): Option<Option<bool>> {
    match Get(j, key)
    case JNull => Some(None)
    case JBool(b) => Some(Some(b))
    case _ => None
  }

  /** A required `Vec<String>` field. */
  function ReqStrings(j: Json, key: string): Option<seq<string>> {
    var v := Get(j, key);
    if v.JArr? && forall k :: 0 <= k < |v.items| ==> v.items[k].JStr? then
      Some(seq(|v.items|, k requires 0 <= k < |v.items| => v.items[k].s))
    else None
  }

  // ---------------------------------------------------------------- records from JSON

  function DecodeEnvelope(j: Json): Option<Envelope> {
    var version, kind, id, ts := ReqStr(j, "version"), ReqStr(j, "type"), ReqStr(j, "id"), ReqU64(j, "timestamp");
    if version.Some? && kind.Some? && id.Some? && ts.Some? && Has(j, "payload") then
      Some(Envelope(version.value, kind.value, id.value, ts.value, Get(j, "payload")))
    else None
  }

  function DecodeAgentReady(j: Json): Option<AgentReadyPayload> {
    var platform, version, caps, restore :=
      ReqStr(j, "platform"), ReqStr(j, "agent_version"), ReqStrings(j, "capabilities"), ReqBool(j, "supports_clipboard_restore");
    if platform.Some? && version.Some? && caps.Some? && restore.Some? then
      Some(AgentReadyPayload(platform.value, version.value, caps.value, restore.value))
    else None
  }

  function DecodeAgentStatus(j: Json): Option<AgentStatusPayload> {
    var state, detail := ReqStr(j, "state"), DefaultStr(j, "detail");
    if state.Some? && detail.Some? then Some(AgentStatusPayload(state.value, detail.value)) else None
  }

  function DecodeAgentError(j: Json): Option<AgentErrorPayload> {
    var code, message, recoverable := ReqStr(j, "code"), ReqStr(j, "message"), ReqBool(j, "recoverable");
    if code.Some? && message.Some? && recoverable.Some? then
      Some(AgentErrorPayload(code.value, message.value, recoverable.value))
    else None
  }

  function DecodeMessageNew(j: Json): Option<MessageNewPayload> {
    var chatId, title, group, sender := ReqStr(j, "chat_id"), ReqStr(j, "chat_title"), ReqBool(j, "is_group"), ReqStr(j, "sender_name");
    var text, ts, msgId := ReqStr(j, "text"), ReqU64(j, "timestamp"), OptStr(j, "msg_id");
    if chatId.Some? && title.Some? && group.Some? && sender.Some? && text.Some? && ts.Some? && msgId.Some? then
      Some(MessageNewPayload(chatId.value, title.value, group.value, sender.value, text.value, ts.value, msgId.value))
    else None
  }

  function DecodeInputWrite(j: Json): Option<InputWritePayload> {
    var chatId, text, mode, restore := ReqStr(j, "chat_id"), ReqStr(j, "text"), OptStr(j, "mode"), OptBool(j, "restore_clipboard");
    if chatId.Some? && text.Some? && mode.Some? && restore.Some? then
      Some(InputWritePayload(chatId.value, text.value, mode.value, restore.value))
    else None
  }

  function DecodeInputResult(j: Json): Option<InputResultPayload> {
    var ok, error := ReqBool(j, "ok"), DefaultStr(j, "error");
    if ok.Some? && error.Some? then Some(InputResultPayload(ok.value, error.value)) else None
  }

  function DecodeEventAck(j: Json): Option<EventAckPayload> {
    var ackId, ok, error := ReqStr(j, "ack_id"), ReqBool(j, "ok"), DefaultStr(j, "error");
    if ackId.Some? && ok.Some? && error.Some? then Some(EventAckPayload(ackId.value, ok.value, error.value)) else None
  }

  // ---------------------------------------------------------------- records to JSON

  function OptStrJson(o: Option<string>): Json {
    match o
    case None => JNull
    case Some(s) => JStr(s)
  }

  function OptBoolJson(o: Option<bool>): Json {
    match o
    case None => JNull
    case Some(b) => JBool(b)
  }

  function EnvelopeJson(e: Envelope): Json {
    JObj(map["version" := JStr(e.version), "type" := JStr(e.kind), "id" := JStr(e.id),
             "timestamp" := JInt(e.timestamp), "payload" := e.payload])
  }

  function MessageNewJson(p: MessageNewPayload): Json {
    JObj(map["chat_id" := JStr(p.chatId), "chat_title" := JStr(p.chatTitle), "is_group" := JBool(p.isGroup),
             "sender_name" := JStr(p.senderName), "text" := JStr(p.text), "timestamp" := JInt(p.timestamp),
             "msg_id" := OptStrJson(p.msgId)])
  }

  function InputWriteJson(p: InputWritePayload): Json {
    JObj(map["chat_id" := JStr(p.chatId), "text" := JStr(p.text),
             "mode" := OptStrJson(p.mode), "restore_clipboard" := OptBoolJson(p.restoreClipboard)])
  }

  /** Serialising an envelope and reading it back gives the same envelope. */
  lemma EnvelopeRoundTrip(e: Envelope)
    requires e.timestamp < U64Limit
    ensures DecodeEnvelope(EnvelopeJson(e)) == Some(e)
  {
  }

  /** Serialising a `message.new` payload and reading it back gives the same payload. */
  lemma MessageNewRoundTrip(p: MessageNewPayload)
    requires p.timestamp < U64Limit
    ensures DecodeMessageNew(MessageNewJson(p)) == Some(p)
  {
    var j := MessageNewJson(p);
    assert OptStr(j, "msg_id") == Some(p.msgId) by {
      assert Get(j, "msg_id") == OptStrJson(p.msgId);
    }
  }

  lemma InputWriteRoundTrip(p: InputWritePayload)
    ensures DecodeInputWrite(InputWriteJson(p)) == Some(p)
  {
    var j := InputWriteJson(p);
    assert Get(j, "mode") == OptStrJson(p.mode);
    assert Get(j, "restore_clipboard") == OptBoolJson(p.restoreClipboard);
  }

  // ---------------------------------------------------------------- constructors

  /** `IpcEnvelope::new`: the fresh UUID and the clock reading are parameters. */
  function NewEnvelope(kind: string, payload: Json, id: string, timestamp: nat): (e: Envelope)
    ensures e.version == ProtocolVersion && e.kind == kind && e.payload == payload
  {
    Envelope(ProtocolVersion, kind, id, timestamp, payload)
  }

  /** `IpcEnvelope::ack_for`: an `event.ack` whose payload names the acknowledged id. */
  function AckFor(messageId: string, ok: bool, error: string, id: string, timestamp: nat): (e: Envelope)
    ensures e.kind == "event.ack" && e.version == ProtocolVersion
    ensures DecodeEventAck(e.payload) == Some(EventAckPayload(messageId, ok, error))
  {
    var payload := JObj(map["ack_id" := JStr(messageId), "ok" := JBool(ok), "error" := JStr(error)]);
    assert Get(payload, "ack_id") == JStr(messageId);
    assert Get(payload, "ok") == JBool(ok);
    assert Has(payload, "error") && Get(payload, "error") == JStr(error);
    NewEnvelope("event.ack", payload, id, timestamp)
  }

  // ---------------------------------------------------------------- validation

  /** `validate_envelope`: version first, then non-blank id and type. */
  function ValidateEnvelope(e: Envelope): (r: Result<(), string>)
    ensures r.Ok? <==> e.version == ProtocolVersion && !IsBlank(e.id) && !IsBlank(e.kind)
    ensures e.version != ProtocolVersion ==> r == Err(ErrVersion)
    ensures e.version == ProtocolVersion && r.Err? ==> r == Err(ErrMissingField)
  {
    if e.version != ProtocolVersion then Err(ErrVersion)
    else if IsBlank(e.id) || IsBlank(e.kind) then Err(ErrMissingField)
    else Ok(())
  }

  /** `parse_envelope`: a line longer than the byte cap is refused before it is
      parsed; then it must decode into an envelope, and the envelope must validate. */
  function ParseEnvelope(line: string, parse: string -> Option<Json>): (r: Result<Envelope, string>)
    ensures Utf8Len(line) > MaxRawMessageLen ==> r == Err(ErrTooLarge)
    ensures r.Ok? ==>
      Utf8Len(line) <= MaxRawMessageLen && parse(line).Some? && DecodeEnvelope(parse(line).value) == Some(r.value)
    ensures r.Ok? ==> r.value.version == ProtocolVersion && !IsBlank(r.value.id) && !IsBlank(r.value.kind)
  {
    if Utf8Len(line) > MaxRawMessageLen then Err(ErrTooLarge)
    else
      match parse(line)
      case None => Err(ErrMalformed)
      case Some(j) =>
        match DecodeEnvelope(j)
        case None => Err(ErrMalformed)
        case Some(e) =>
          match ValidateEnvelope(e)
          case Err(msg) => Err(msg)
          case Ok(_) => Ok(e)
  }

  /** A line within the cap is accepted exactly when it decodes into a valid envelope. */
  lemma ParseEnvelopeAccepts(line: string, parse: string -> Option<Json>)
    requires Utf8Len(line) <= MaxRawMessageLen
    ensures ParseEnvelope(line, parse).Ok? <==>
      parse(line).Some? && DecodeEnvelope(parse(line).value).Some?
      && ValidateEnvelope(DecodeEnvelope(parse(line).value).value).Ok?
  {
  }

  /** An envelope the host builds itself passes validation whenever its id and type
      are not blank, and a line carrying it is accepted by `ParseEnvelope`. */
  lemma NewEnvelopeIsAccepted(kind: string, payload: Json, id: string, timestamp: nat, line: string, parse: string -> Option<Json>)
    requires !IsBlank(kind) && !IsBlank(id) && timestamp < U64Limit
    requires Utf8Len(line) <= MaxRawMessageLen
    requires parse(line) == Some(EnvelopeJson(NewEnvelope(kind, payload, id, timestamp)))
    ensures ParseEnvelope(line, parse) == Ok(NewEnvelope(kind, payload, id, timestamp))
  {
    EnvelopeRoundTrip(NewEnvelope(kind, payload, id, timestamp));
  }

  /** `validate_message_new`: chat_id, then text must be non-blank, and the text may
      hold at most 10,000 UTF-8 bytes. */
  function ValidateMessageNew(p: MessageNewPayload): (r: Result<(), string>)
    ensures r.Ok? <==> !IsBlank(p.chatId) && !IsBlank(p.text) && Utf8Len(p.text) <= MaxMessageTextLen
    ensures IsBlank(p.chatId) ==> r == Err(ErrEmptyChatId)
    ensures !IsBlank(p.chatId) && IsBlank(p.text) ==> r == Err(ErrEmptyText)
    ensures !IsBlank(p.chatId) && !IsBlank(p.text) && Utf8Len(p.text) > MaxMessageTextLen ==> r == Err(ErrTextTooLong)
  {
    if IsBlank(p.chatId) then Err(ErrEmptyChatId)
    else if IsBlank(p.text) then Err(ErrEmptyText)
    else if Utf8Len(p.text) > MaxMessageTextLen then Err(ErrTextTooLong)
    else Ok(())
  }

  /** The empty text of the source's own test is refused. */
  lemma EmptyMessageRejected()
    ensures ValidateMessageNew(MessageNewPayload("c1", "t", false, "s", "", 1, None)) == Err(ErrEmptyText)
  {
    assert !IsBlank("c1") by {
      assert "c1"[0] == 'c' && "c1"[1] == '1';
      TrimFixesUntrimmed(Rust, "c1");
    }
  }
}
