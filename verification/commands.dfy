/**
 * The commands the UI invokes on the host: start, stop, pause and resume
 * listening, write a suggestion into the chat, and change the configuration;
 * and the initial status. Starting the worker process is not modelled: its
 * outcome (a handle, or an error message) is a parameter.
 */
module Commands {
  import opened Base
  import opened Text
  import opened Json
  import opened Types
  import opened Ipc
  import opened State

  const ErrConfigFixed: string := "配置已固定为默认值"
  const ErrWriteChatId: string := "chat_id 不能为空"
  const ErrWriteEmpty: string := "回复内容不能为空"
  const ErrWriteTooLong: string := "回复内容过长"
  const ErrNoAgent: string := "Agent 未连接"
  const MaxReplyLen: nat := 2000

  /** `initial_status`: the build's target platform is a parameter. */
  function InitialStatus(platform: Platform): (s: Status)
    ensures s.state == Idle && !s.agentConnected && s.lastError == "" && s.platform == platform
  {
    Status(Idle, platform, false, "")
  }

  /** `ensure_agent_running`: a worker is started only when none is stored, and a
      started one is stored. */
  function EnsureAgent(v: AppView, start: Result<AgentHandle, string>): Result<AppView, string> {
    if v.agent.Some? then Ok(v)
    else
      match start
      case Ok(h) => Ok(v.(agent := Some(h)))
      case Err(msg) => Err(msg)
  }

  /** `start_listening`. */
  function StartListening(v: AppView, start: Result<AgentHandle, string>): (AppView, ApiResponse<()>) {
    if v.status.state == Listening then (v, ApiOk(()))
    else
      match EnsureAgent(v, start)
      case Err(msg) => (v, ApiErr(msg))
      case Ok(w) => (WithRuntime(w, Listening, ""), ApiOk(()))
  }

  method StartListeningIn(s: AppState, start: Result<AgentHandle, string>) returns (resp: ApiResponse<()>, events: seq<UiEvent>)
    modifies s
    ensures (s.View(), resp) == StartListening(old(s.View()), start)
    ensures events == if s.View() == old(s.View()) then [] else [StatusChanged(s.status)]
  {
    if s.status.state == Listening {
      return ApiOk(()), [];
    }
    if s.agent.None? {
      match start
      case Err(msg) =>
        return ApiErr(msg), [];
      case Ok(h) =>
        s.SetAgent(h);
    }
    s.UpdateState(Listening, "");
    return ApiOk(()), [StatusChanged(s.status)];
  }

  /** Starting while already listening succeeds without any change; a worker
      that fails to start leaves everything unchanged and reports its error;
      otherwise the state becomes `Listening` with no error and a worker is
      stored, the one already there if any. (Already listening, no worker is
      required.) */
  lemma StartListeningOutcomes(v: AppView, start: Result<AgentHandle, string>)
    ensures v.status.state == Listening ==> StartListening(v, start) == (v, ApiOk(()))
    ensures v.status.state != Listening && v.agent.None? && start.Err? ==>
      StartListening(v, start) == (v, ApiErr(start.error))
    ensures var (w, r) := StartListening(v, start);
      && (r.success ==> w.status.state == Listening && (v.agent.Some? ==> w.agent == v.agent))
      && (r.success && v.status.state != Listening ==> w.agent.Some? && w.status.lastError == "")
    ensures var (w, r) := StartListening(v, start);
      w.conversations == v.conversations && w.lastMessageKeys == v.lastMessageKeys && w.config == v.config
  {
  }

  /** `stop_listening`, `pause_listening`, `resume_listening`: unconditional. */
  function StopListening(v: AppView): AppView { WithRuntime(v, Idle, "") }
  function PauseListening(v: AppView): AppView { WithRuntime(v, Paused, "") }
  function ResumeListening(v: AppView): AppView { WithRuntime(v, Listening, "") }

  method SetListening(s: AppState, runtime: RuntimeState) returns (resp: ApiResponse<()>, events: seq<UiEvent>)
    modifies s
    ensures s.View() == WithRuntime(old(s.View()), runtime, "")
    ensures resp == ApiOk(()) && events == [StatusChanged(s.status)]
  {
    s.UpdateState(runtime, "");
    return ApiOk(()), [StatusChanged(s.status)];
  }

  /** Each of the three sets its state from any state, clears the error and
      changes nothing else; pausing or stopping twice is pausing or stopping once. */
  lemma ListeningCommands(v: AppView)
    ensures StopListening(v).status == Status(Idle, v.status.platform, v.status.agentConnected, "")
    ensures PauseListening(v).status == Status(Paused, v.status.platform, v.status.agentConnected, "")
    ensures ResumeListening(v).status == Status(Listening, v.status.platform, v.status.agentConnected, "")
    ensures StopListening(StopListening(v)) == StopListening(v) && PauseListening(PauseListening(v)) == PauseListening(v)
    ensures ResumeListening(PauseListening(v)) == ResumeListening(v)
  {
  }

  /** `write_suggestion`: the guards in order, then one `input.write` envelope
      (fresh id and timestamp as parameters) handed to the worker's channel, whose
      failure (`sendError`) is reported as is. The state is only read. */
  function WriteSuggestion(v: AppView, chatId: string, text: string, id: string, timestamp: nat,
                           sendError: Option<string>): (ApiResponse<()>, Option<Envelope>) {
    if IsBlank(chatId) then (ApiErr(ErrWriteChatId), None)
    else if IsBlank(text) then (ApiErr(ErrWriteEmpty), None)
    else if Utf8Len(text) > MaxReplyLen then (ApiErr(ErrWriteTooLong), None)
    else if v.agent.None? then (ApiErr(ErrNoAgent), None)
    else
      var payload := InputWritePayload(chatId, text, Some("paste"), Some(true));
      var envelope := NewEnvelope("input.write", InputWriteJson(payload), id, timestamp);
      match sendError
      case Some(msg) => (ApiErr(msg), Some(envelope))
      case None => (ApiOk(()), Some(envelope))
  }

  /** The first failing guard decides the error, and nothing is sent then; past
      the guards exactly one `input.write` is sent, whose payload reads back as the
      chat, the text, paste mode and clipboard restore. */
  lemma WriteSuggestionOutcomes(v: AppView, chatId: string, text: string, id: string, timestamp: nat, sendError: Option<string>)
    ensures var (r, sent) := WriteSuggestion(v, chatId, text, id, timestamp, sendError);
      && (IsBlank(chatId) ==> r == ApiErr(ErrWriteChatId) && sent == None)
      && (!IsBlank(chatId) && IsBlank(text) ==> r == ApiErr(ErrWriteEmpty) && sent == None)
      && (!IsBlank(chatId) && !IsBlank(text) && Utf8Len(text) > MaxReplyLen ==> r == ApiErr(ErrWriteTooLong) && sent == None)
      && (!IsBlank(chatId) && !IsBlank(text) && Utf8Len(text) <= MaxReplyLen && v.agent.None? ==> r == ApiErr(ErrNoAgent) && sent == None)
      && (r.success <==> !IsBlank(chatId) && !IsBlank(text) && Utf8Len(text) <= MaxReplyLen && v.agent.Some? && sendError.None?)
      && (sent.Some? ==>
            && sent.value.kind == "input.write" && sent.value.version == ProtocolVersion
            && DecodeInputWrite(sent.value.payload) == Some(InputWritePayload(chatId, text, Some("paste"), Some(true))))
  {
    InputWriteRoundTrip(InputWritePayload(chatId, text, Some("paste"), Some(true)));
  }

  /** `set_config`: the configuration is fixed; the request is always refused and
      the state is untouched. */
  function SetConfig(v: AppView, config: Config): (r: (AppView, ApiResponse<()>))
    ensures r.0 == v && !r.1.success && r.1.message == ErrConfigFixed && Coherent(r.1)
  {
    (v, ApiErr(ErrConfigFixed))
  }
}
