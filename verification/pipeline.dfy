/**
 * The handling of one incoming chat message: validate, drop duplicates,
 * record, switch to `Generating`, and hand the chat's context to a background
 * generation that later reports suggestions (or their absence) and switches
 * back to `Listening`.
 *
 * The background task is modelled as a second, separate step: the first step
 * returns the job it would spawn; `CompleteGeneration` runs it to the end
 * given the outcome of the HTTP exchange and the stored API key.
 */
module MessagePipeline {
  import opened Base
  import opened Text
  import opened Json
  import opened Types
  import opened Ipc
  import opened State
  import opened Deepseek

  const SuggestionEmpty: ErrorPayload := ErrorPayload("SUGGESTION_EMPTY", "未生成回复建议", true)

  /** What the spawned generation captures: the chat, its context and the config. */
  datatype GenerationJob = GenerationJob(chatId: string, context: seq<string>, config: Config)

  /** The state after the first step, the job it spawns (if any), and the UI events. */
  datatype Intake = Intake(view: AppView, job: Option<GenerationJob>, events: seq<UiEvent>)

  function MessageOf(p: MessageNewPayload): ChatMessage {
    ChatMessage(p.text, p.timestamp, p.msgId)
  }

  /** The first step of `handle_incoming_message`. */
  function Incoming(v: AppView, p: MessageNewPayload): Intake {
    if ValidateMessageNew(p).Err? then Intake(v, None, [])
    else if Duplicate(v, p.chatId, p.msgId, p.text, p.timestamp) then Intake(v, None, [])
    else
      var recorded := Record(v, p.chatId, MessageOf(p));
      var generating := WithRuntime(recorded, Generating, "");
      Intake(generating, Some(GenerationJob(p.chatId, Context(generating, p.chatId), generating.config)),
             [StatusChanged(generating.status)])
  }

  method HandleIncomingMessage(s: AppState, p: MessageNewPayload) returns (job: Option<GenerationJob>, events: seq<UiEvent>)
    modifies s
    ensures Intake(s.View(), job, events) == Incoming(old(s.View()), p)
  {
    if ValidateMessageNew(p).Err? {
      return None, [];
    }
    if s.IsDuplicate(p.chatId, p.msgId, p.text, p.timestamp) {
      return None, [];
    }
    s.RecordMessage(p.chatId, ChatMessage(p.text, p.timestamp, p.msgId));
    s.UpdateState(Generating, "");
    events := [StatusChanged(s.status)];
    var context := s.ContextForChat(p.chatId);
    job := Some(GenerationJob(p.chatId, context, s.config));
  }

  /** The events and state at the end of the background generation. */
  function Completion(v: AppView, job: GenerationJob, result: Result<seq<Suggestion>, string>): (AppView, seq<UiEvent>) {
    var suggestions := result.OkOr([]);
    var report := if suggestions == [] then ErrorRaised(SuggestionEmpty) else SuggestionsUpdated(job.chatId, suggestions);
    var listening := WithRuntime(v, Listening, "");
    (listening, [report, StatusChanged(listening.status)])
  }

  /** The spawned task: generate (an error counts as no suggestions), report, and
      return to `Listening`. */
  method CompleteGeneration(s: AppState, job: GenerationJob, apiKey: Option<string>,
                            outcome: HttpOutcome, parse: string -> Option<Json>) returns (events: seq<UiEvent>)
    modifies s
    ensures (s.View(), events) == Completion(old(s.View()), job, GenerateSuggestions(job.config, apiKey, job.context, outcome, parse))
  {
    var result := GenerateSuggestions(job.config, apiKey, job.context, outcome, parse);
    var suggestions := result.OkOr([]);
    var report: UiEvent;
    if suggestions == [] {
      report := ErrorRaised(SuggestionEmpty);
    } else {
      report := SuggestionsUpdated(job.chatId, suggestions);
    }
    s.UpdateState(Listening, "");
    events := [report, StatusChanged(s.status)];
  }

  /** An invalid payload, or one whose key equals the chat's last key, changes
      nothing, spawns nothing and emits nothing. */
  lemma IncomingRejects(v: AppView, p: MessageNewPayload)
    ensures ValidateMessageNew(p).Err? ==> Incoming(v, p) == Intake(v, None, [])
    ensures Duplicate(v, p.chatId, p.msgId, p.text, p.timestamp) ==> Incoming(v, p) == Intake(v, None, [])
  {
  }

  /** A new valid message is recorded first, then the state becomes `Generating`
      with no error; the job's context is the chat's trimmed history, which ends
      with the new text when the message limit is positive. */
  lemma IncomingAccepts(v: AppView, p: MessageNewPayload)
    requires ValidateMessageNew(p).Ok? && !Duplicate(v, p.chatId, p.msgId, p.text, p.timestamp)
    ensures var i := Incoming(v, p);
      && i.view == WithRuntime(Record(v, p.chatId, MessageOf(p)), Generating, "")
      && i.view.status.state == Generating && i.view.status.lastError == ""
      && i.job == Some(GenerationJob(p.chatId, Context(Record(v, p.chatId, MessageOf(p)), p.chatId), v.config))
      && i.events == [StatusChanged(i.view.status)]
    ensures v.config.contextMaxMessages > 0 ==>
      var ctx := Incoming(v, p).job.value.context; ctx != [] && ctx[|ctx| - 1] == p.text
  {
    RecordProperties(v, p.chatId, MessageOf(p), p.chatId + "x");
  }

  /** Delivering the same message twice is the same as delivering it once. */
  lemma IncomingTwiceIsOnce(v: AppView, p: MessageNewPayload)
    ensures var once := Incoming(v, p).view; Incoming(once, p) == Intake(once, None, [])
  {
    if ValidateMessageNew(p).Ok? && !Duplicate(v, p.chatId, p.msgId, p.text, p.timestamp) {
      RecordProperties(v, p.chatId, MessageOf(p), p.chatId + "x");
    }
  }

  /** Whatever the generation gives, the state ends `Listening` with no error and
      exactly one report precedes the status change: `SUGGESTION_EMPTY` when there
      is nothing to show, otherwise the suggestions for the job's chat. Since the
      generation falls back whenever it can, nothing to show means a key was
      present and the HTTP exchange itself failed. */
  lemma CompletionReports(v: AppView, job: GenerationJob, apiKey: Option<string>,
                          outcome: HttpOutcome, parse: string -> Option<Json>)
    ensures var result := GenerateSuggestions(job.config, apiKey, job.context, outcome, parse);
      var (w, events) := Completion(v, job, result);
      && w == WithRuntime(v, Listening, "")
      && |events| == 2 && events[1] == StatusChanged(w.status)
      && (events[0] == ErrorRaised(SuggestionEmpty) <==> apiKey.Some? && !outcome.Response?)
      && (result.Ok? ==> events[0] == SuggestionsUpdated(job.chatId, result.value))
  {
    GenerateOutcomes(job.config, apiKey, job.context, outcome, parse);
  }
}
