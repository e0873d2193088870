/**
 * The value types the host shares with its UI and its worker: the runtime
 * state machine's states, platforms, chat kinds, suggestion styles, the status
 * record, the configuration with its defaults, and the `ApiResponse` every UI
 * command returns.
 */
module Types {
  import opened Base

  datatype RuntimeState = Idle | Listening | Generating | Paused | Error
  datatype Platform = Windows | Macos | UnknownPlatform
  datatype ChatKind = Direct | Group | UnknownKind
  datatype SuggestionStyle = Formal | Neutral | Casual

  datatype ListenTarget = ListenTarget(name: string, kind: ChatKind)
  datatype ChatSummary = ChatSummary(chatId: string, chatTitle: string, kind: ChatKind)

  /** A reply suggestion. Its random identifier is not modelled. */
  datatype Suggestion = Suggestion(style: SuggestionStyle, text: string)

  datatype Status = Status(state: RuntimeState, platform: Platform, agentConnected: bool, lastError: string)

  /** `temperature` and `top_p` are `f32` in the program; here they are exact reals. */
  datatype Config = Config(
    deepseekModel: string,
    suggestionCount: nat,
    contextMaxMessages: nat,
    contextMaxChars: nat,
    pollIntervalMs: nat,
    temperature: real,
    topP: real,
    baseUrl: string,
    timeoutMs: nat,
    maxRetries: nat,
    logLevel: string,
    logToFile: bool)

  /** The payload of an `error.raised` UI event. */
  datatype ErrorPayload = ErrorPayload(code: string, message: string, recoverable: bool)

  /** The events the host emits to its UI. */
  datatype UiEvent =
    | StatusChanged(status: Status)
    | ErrorRaised(error: ErrorPayload)
    | SuggestionsUpdated(chatId: string, suggestions: seq<Suggestion>)

  datatype ApiResponse<T> = ApiResponse(success: bool, message: string, data: Option<T>)

  /** A response is coherent when it carries data exactly when it reports success,
      and a message exactly when it reports failure with one. */
  predicate Coherent<T>(r: ApiResponse<T>) {
    r.success <==> r.data.Some?
  }

  function ApiOk<T>(data: T): (r: ApiResponse<T>)
    ensures Coherent(r) && r.success
    ensures r.message == "" && r.data.value == data
  {
    ApiResponse(true, "", Some(data))
  }

  function ApiErr<T>(message: string): (r: ApiResponse<T>)
    ensures Coherent(r) && !r.success
    ensures r.message == message
  {
    ApiResponse(false, message, None)
  }

  function DefaultConfig(): (c: Config)
    ensures c.suggestionCount == 3 && c.contextMaxMessages == 10 && c.contextMaxChars == 2000
    ensures c.pollIntervalMs == 800 && c.timeoutMs == 12000 && c.maxRetries == 2
    ensures c.deepseekModel == "deepseek-chat" && c.baseUrl == "https://api.deepseek.com"
    ensures c.temperature == 0.7 && c.topP == 1.0 && c.logLevel == "info" && !c.logToFile
  {
    Config("deepseek-chat", 3, 10, 2000, 800, 0.7, 1.0, "https://api.deepseek.com", 12000, 2, "info", false)
  }

  const AllRuntimeStates: set<RuntimeState> := {Idle, Listening, Generating, Paused, Error}
  const AllStyles: set<SuggestionStyle> := {Formal, Neutral, Casual}
  const AllChatKinds: set<ChatKind> := {Direct, Group, UnknownKind}

  /** The state machine has exactly five states; styles and chat kinds have three each. */
  lemma EnumerationsAreExact()
    ensures |AllRuntimeStates| == 5 && forall s: RuntimeState :: s in AllRuntimeStates
    ensures |AllStyles| == 3 && forall s: SuggestionStyle :: s in AllStyles
    ensures |AllChatKinds| == 3 && forall k: ChatKind :: k in AllChatKinds
  {
    forall s: RuntimeState ensures s in AllRuntimeStates {
      match s
      case Idle => case Listening => case Generating => case Paused => case Error =>
    }
    forall s: SuggestionStyle ensures s in AllStyles {
      match s
      case Formal => case Neutral => case Casual =>
    }
    forall k: ChatKind ensures k in AllChatKinds {
      match k
      case Direct => case Group => case UnknownKind =>
    }
  }

  /** serde's lower-case wire names of the runtime states. */
  function StateName(s: RuntimeState): (name: string)
    ensures name != []
  {
    match s
    case Idle => "idle"
    case Listening => "listening"
    case Generating => "generating"
    case Paused => "paused"
    case Error => "error"
  }

  lemma StateNamesDistinct(a: RuntimeState, b: RuntimeState)
    ensures StateName(a) == StateName(b) <==> a == b
  {
  }
}
