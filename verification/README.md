# WeReply core, modelled in Dafny

WeReply watches a WeChat desktop client and proposes replies to the chat
messages it sees. A Rust host (a Tauri application) keeps the shared state.
It talks to a platform worker over a line protocol of JSON envelopes, and it
asks a DeepSeek chat-completion endpoint for reply suggestions. On Windows the
worker is a Python process driving WeChat through the wxauto library. On macOS
the host reads WeChat's encrypted message database and its accessibility tree.

This project models the bookkeeping and decision logic of that system:

- the per-chat dedup key and rolling history (`State`);
- listen-target normalisation (`ListenTargets`);
- the envelope protocol (`Ipc`);
- the host's read loop and status state machine (`Agent`, `MessagePipeline`, `Commands`);
- the suggestion request and response logic (`Deepseek`);
- the Windows worker's ack tracker and command handler (`WxautoAgent`);
- the macOS database reader's pure parts (`DbReader`);
- accessibility paths, snapshots and the learned-path store (`AxPath`, `StaticUiPaths`, `AxSnapshot`, `UiPathsStore`);
- the recent-chat lists (`SessionList`);
- WeChat process and window recognition (`Uia`, `Ax`);
- the wxauto main-window layout discovery (`Layout`);
- the Windows build script's decisions and its `._pth` rewrite (`Build`).

`Base` (Option, Result), `Text` (the Rust and Python string primitives) and
`Json` (the `serde_json::Value` accessors) are shared helpers.

How each kind of source becomes a model:

- **Pure functions** are Dafny functions.
- **Loops** are methods. Each is proved equal to a specification function, and the properties are proved about that function.
- **Shared mutable state** is a class with a value view. The Rust `AppState`, the Python `AgentState`, the macOS reader's cursor and the UI-path slot each become one. Every method is proved to move the view exactly as a pure transition function says.
- **Effects become parameters.** HTTP outcomes, JSON text parsing, clocks, UUIDs, file reads, environment values, accessibility and UI Automation trees, and database rows are all passed in.

## Model

| member | source | states |
|---|---|---|
| State.DedupeKeyWithoutIdIsExact | src-tauri/src/state.rs:79-84 | without a message id, two keys are equal exactly when text and timestamp are both equal |
| State.DedupeKeyCanCollideAcrossKinds | src-tauri/src/state.rs:79-84 | a message id that reads like `text:timestamp` collides with the id-less key of that text and time |
| State.FitStart | src-tauri/src/state.rs:92-101 | the position the reverse character scan stops at: the messages from there on fit within the character budget |
| State.FitStartIsLeast | src-tauri/src/state.rs:95-101 | every earlier start position exceeds the character budget |
| State.TrimMessages | src-tauri/src/state.rs:86-105 | the in-place `remove(0)`/reverse-scan/`drain` loop leaves exactly the count-then-character trimmed history |
| State.CountTrimProperties | src-tauri/src/state.rs:87-90 | count trimming keeps the newest `max` messages in order: a suffix, never longer than `max`, ending with the newest message |
| State.CharTrimProperties | src-tauri/src/state.rs:92-104 | character trimming keeps a suffix ending with the newest message; the total exceeds the budget exactly when the newest message alone does, and then nothing is dropped; one more message would not have fit |
| State.TrimmedHistoryProperties | src-tauri/src/state.rs:86-105 | the trimmed history is a suffix of the input with at most `context_max_messages` entries (none for limit 0), ends with the newest message, and is within the character budget unless the newest message alone exceeds it |
| State.TrimmedHistoryWithinLimits | src-tauri/src/state.rs:86-105 | a history already within both limits is left unchanged |
| State.Texts | src-tauri/src/state.rs:71-76 | the texts of the messages, one per message, in order |
| State.RecordProperties | src-tauri/src/state.rs:48-76 | an unrecorded chat has no duplicate; a message just recorded is a duplicate of itself; other chats' keys and histories are unchanged; the context then ends with the new text and holds at most `context_max_messages` texts |
| State.RecordHistory | src-tauri/src/state.rs:62-69 | the chat's history after recording is the trimmed old history with the message appended |
| State.TwoMessageHistories | src-tauri/src/state.rs:113-139 | with a limit of two messages, appending three short messages one by one keeps the last two |
| State.TwoMessageLimitExample | src-tauri/src/state.rs:113-139 | the unit test: recording msg0, msg1, msg2 with a limit of two leaves the context ["msg1", "msg2"] |
| State.StatusUpdates | src-tauri/src/agent.rs:247-282 | `update_state`, `update_platform` and `update_agent_connected` change only the status, and only the fields each names; a disconnection also sets state Error with its message |
| State.AppState.constructor | src-tauri/src/state.rs:28-46 | the listen targets are normalised with the cap of 50; no worker, histories or keys |
| State.AppState.UpdateState | src-tauri/src/agent.rs:247-257 | the state and last error are replaced, nothing else changes |
| State.AppState.UpdatePlatform | src-tauri/src/agent.rs:259-267 | only the platform is replaced |
| State.AppState.UpdateAgentConnected | src-tauri/src/agent.rs:269-282 | the connection flag is set; on disconnection the state becomes Error with the given message |
| State.AppState.SetAgent | src-tauri/src/lib.rs:180-199 | the started worker is stored and nothing else changes |
| State.AppState.RecordMessage | src-tauri/src/state.rs:62-69 | the chat's key is stored and its history extended and trimmed, as `Record` says |
| ListenTargets.NormalizeAll | src-tauri/src/listen_targets.rs:16-18 | every target with its name trimmed, kind kept, order kept |
| ListenTargets.NormalizeListenTargets | src-tauri/src/listen_targets.rs:10-31 | the loop with its `seen` set, `continue`s and `break` never fails and returns the capped first occurrences |
| ListenTargets.FirstsSound | src-tauri/src/listen_targets.rs:17-25 | the filtered names are non-blank, unseen and pairwise distinct |
| ListenTargets.FirstsFirstOccurrence | src-tauri/src/listen_targets.rs:16-30 | each kept target is the first one with its name, in input order |
| ListenTargets.FirstsComplete | src-tauri/src/listen_targets.rs:16-30 | every non-blank, unseen name of the input is in the output |
| ListenTargets.CappedProperties | src-tauri/src/listen_targets.rs:10-31 | at most `max` targets (none for 0), trimmed non-empty distinct names, each the first occurrence with its kind, in order, and every non-blank name present when the cap was not reached |
| ListenTargets.TeamAExample | src-tauri/src/listen_targets.rs:38-57 | the unit test: "  Team A ", "Team A" and "" normalise to one "Team A" |
| Types.ApiOk | src-tauri/src/types.rs:127-133 | success, an empty message and the data |
| Types.ApiErr | src-tauri/src/types.rs:135-141 | failure, the given message and no data |
| Types.DefaultConfig | src-tauri/src/types.rs:143-160 | the defaults: 3 suggestions, 10 messages, 2000 characters, 800 ms poll, 12000 ms timeout, 2 retries, model, URL, temperature 0.7, top_p 1.0, log level info |
| Types.EnumerationsAreExact | src-tauri/src/types.rs:4-51 | five runtime states, three suggestion styles and three chat kinds |
| Types.StateNamesDistinct | src-tauri/src/types.rs:4-13 | the lower-case wire names of the runtime states are pairwise distinct |
| Ipc.EnvelopeRoundTrip | src-tauri/src/ipc.rs:9-17 | an envelope written as JSON decodes back to itself |
| Ipc.MessageNewRoundTrip | src-tauri/src/ipc.rs:41-51 | a `message.new` payload written as JSON decodes back to itself |
| Ipc.InputWriteRoundTrip | src-tauri/src/ipc.rs:53-61 | an `input.write` payload written as JSON decodes back to itself |
| Ipc.NewEnvelope | src-tauri/src/ipc.rs:80-92 | version "1.0", the given type and the given payload |
| Ipc.AckFor | src-tauri/src/ipc.rs:94-101 | an `event.ack` envelope whose payload decodes to the acknowledged id, `ok` and the error |
| Ipc.ValidateEnvelope | src-tauri/src/ipc.rs:114-122 | accepted exactly when the version is "1.0" and id and type are non-blank; the version is checked first |
| Ipc.ParseEnvelope | src-tauri/src/ipc.rs:104-112 | a line over 100,000 bytes is refused before parsing; an accepted line decodes to a valid envelope |
| Ipc.ParseEnvelopeAccepts | src-tauri/src/ipc.rs:104-122 | a line within the cap is accepted exactly when it decodes to an envelope that validates |
| Ipc.NewEnvelopeIsAccepted | src-tauri/src/ipc.rs:80-122 | a line carrying an envelope built by `new` with non-blank id and type is accepted as that envelope |
| Ipc.ValidateMessageNew | src-tauri/src/ipc.rs:124-135 | accepted exactly when chat_id and text are non-blank and the text is at most 10,000 bytes; each failure gives its own error, in that order |
| Ipc.EmptyMessageRejected | src-tauri/src/ipc.rs:151-163 | the unit test's empty text is rejected as empty |
| MessagePipeline.HandleIncomingMessage | src-tauri/src/message_pipeline.rs:11-30 | the validate, dedup, record and Generating steps move the state as `Incoming` says and return the generation job |
| MessagePipeline.CompleteGeneration | src-tauri/src/message_pipeline.rs:31-61 | the spawned task reports the suggestions or SUGGESTION_EMPTY and returns to Listening, as `Completion` says |
| MessagePipeline.IncomingRejects | src-tauri/src/message_pipeline.rs:16-22 | an invalid or duplicate payload changes nothing, spawns nothing and emits nothing |
| MessagePipeline.IncomingAccepts | src-tauri/src/message_pipeline.rs:23-30 | a new valid message is recorded, then the state is Generating with no error, and the job's context is the chat's trimmed history ending with the new text |
| MessagePipeline.IncomingTwiceIsOnce | src-tauri/src/message_pipeline.rs:20-22 | delivering the same message a second time changes nothing |
| MessagePipeline.CompletionReports | src-tauri/src/message_pipeline.rs:41-59 | the state ends Listening with no error; SUGGESTION_EMPTY is raised exactly when a key is set and the HTTP exchange failed; otherwise the suggestions go to the job's chat |
| Agent.RuntimeNames | src-tauri/src/agent.rs:159-168 | every state except Generating is read back from its wire name; "generating" and unknown names read as Idle |
| Agent.HandleEnvelopeIn | src-tauri/src/agent.rs:146-245 | handling an envelope moves the state and emits events as `HandleEnvelope` says |
| Agent.HandleEnvelopeTransitions | src-tauri/src/agent.rs:146-245 | ready sets platform and connection only; status sets the mapped state with its detail; error sets Error and re-emits the payload; message.new goes through the pipeline; a failed input.result raises WRITE_FAILED; anything else changes nothing |
| Agent.HandleLine | src-tauri/src/agent.rs:80-105 | one line: skipped when blank; when it parses, the ack is output before the envelope is handled; PROTOCOL_ERROR otherwise |
| Agent.ReadLines | src-tauri/src/agent.rs:80-117 | the read loop produces exactly the ordered output (acks and UI events), jobs and state of `ReadLoop` |
| Agent.ReportDisconnect | src-tauri/src/agent.rs:107-117 | at the end of the output the agent is marked disconnected with its message, and the disconnection error comes before the status carrying that new state |
| Agent.BlankLineSkipped | src-tauri/src/agent.rs:82-85 | a blank line leaves no trace |
| Agent.LineOutcomes | src-tauri/src/agent.rs:86-105 | a parsed line's ack is its first output, and every event of its handling (each status carrying the new state included) comes after it; an unparsable line raises PROTOCOL_ERROR, changes nothing, and reading continues |
| Agent.EndOfStreamStops | src-tauri/src/agent.rs:107-117 | end of stream outputs AGENT_DISCONNECTED then the new status, disconnects with state Error and "Agent 连接断开", and nothing after it is read |
| Agent.AcksAreParsedIds | src-tauri/src/agent.rs:79-92 | the acks in the output are exactly the ids of the non-blank lines, read before the stream ends or fails, that parse into valid envelopes, in order; none is blank |
| Commands.InitialStatus | src-tauri/src/lib.rs:213-227 | Idle, not connected, no error, the build's platform |
| Commands.StartListeningIn | src-tauri/src/lib.rs:49-66 | `start_listening` moves the state as `StartListening` says and emits a status change exactly when something changed |
| Commands.StartListeningOutcomes | src-tauri/src/lib.rs:49-66 | already Listening: success, no change; a worker that fails to start: its error, no change; otherwise Listening with no error and a stored worker; histories and config untouched |
| Commands.SetListening | src-tauri/src/lib.rs:69-97 | stop, pause and resume set Idle, Paused or Listening, clear the error, succeed and emit the new status |
| Commands.ListeningCommands | src-tauri/src/lib.rs:69-97 | each sets its state from any state and clears the error; stopping or pausing twice is once; resuming after a pause is resuming |
| Commands.WriteSuggestionOutcomes | src-tauri/src/lib.rs:99-139 | blank chat id, blank text, text over 2000 bytes and no worker are refused in that order with nothing sent; otherwise exactly one `input.write` with paste mode and clipboard restore |
| Commands.SetConfig | src-tauri/src/lib.rs:32-40 | always refused, state untouched |
| Deepseek.CapTimeout | src-tauri/src/deepseek.rs:13-15 | the result is in [2000, 8000], the identity inside it, clamped outside it |
| Deepseek.CapTimeoutProperties | src-tauri/src/deepseek.rs:256-258 | capping is idempotent and monotone, and 12000 becomes 8000 |
| Deepseek.BuildRequestShape | src-tauri/src/deepseek.rs:17-35 | the body names the model, holds the system prompt then the user input, with `n` the suggestion count, stream false, and the given temperature and top_p |
| Deepseek.BuildValidationRequestShape | src-tauri/src/deepseek.rs:37-49 | the validation body holds the validation prompt then the input, with n 1, temperature 0 and top_p 1 |
| Deepseek.NumberedLines | src-tauri/src/deepseek.rs:141-144 | one line "k: message" per context message, numbered from 1, in order |
| Deepseek.BuildPrompt | src-tauri/src/deepseek.rs:137-146 | the loop builds exactly the prompt `Prompt` describes |
| Deepseek.PromptLines | src-tauri/src/deepseek.rs:137-146 | an empty context gives the fixed text; otherwise the prompt's lines are the header, the numbered messages in order, and the closing request |
| Deepseek.StyleNames | src-tauri/src/deepseek.rs:165-169 | each style reads back from its name; any other name is Neutral |
| Deepseek.ItemSuggestion | src-tauri/src/deepseek.rs:164-177 | an item gives a suggestion exactly when its trimmed text is non-empty, and that text is trimmed |
| Deepseek.FromItems | src-tauri/src/deepseek.rs:162-180 | no more suggestions than items, each with a trimmed non-empty text |
| Deepseek.LineSuggestion | src-tauri/src/deepseek.rs:185-196 | a line gives a Neutral suggestion with a trimmed non-empty text, or none |
| Deepseek.FromLines | src-tauri/src/deepseek.rs:182-198 | no more suggestions than lines, each Neutral with a trimmed non-empty text |
| Deepseek.ParseResponse | src-tauri/src/deepseek.rs:148-199 | the item loop and the line fallback produce exactly `ParsedResponse` |
| Deepseek.CollectSuggestions | src-tauri/src/deepseek.rs:163-179 | the loop over the JSON items keeps exactly the items `FromItems` keeps, in order |
| Deepseek.ParsedResponseProperties | src-tauri/src/deepseek.rs:148-199 | unparsable JSON is an error; blank content gives no suggestions; every suggestion has a trimmed non-empty text; a plain-text answer gives only Neutral ones |
| Deepseek.FromItemsKeepsAll | src-tauri/src/deepseek.rs:162-180 | items that all carry text are all kept, in order |
| Deepseek.SuggestionsRoundTrip | src-tauri/src/deepseek.rs:162-180 | suggestions written as the requested JSON array are read back exactly |
| Deepseek.SummarizeText | src-tauri/src/deepseek.rs:222-229 | the first 20 characters (a prefix), or "消息" for empty input |
| Deepseek.FallbackSuggestions | src-tauri/src/deepseek.rs:201-220 | exactly three suggestions, Formal, Neutral, Casual, each quoting the summary |
| Deepseek.GenerateOutcomes | src-tauri/src/deepseek.rs:86-135 | an error only when a key is set and the exchange failed; a success is never empty; no key, a non-success status, a parse error or an empty parse gives the fallback; parsed suggestions are used when there are some |
| Deepseek.ValidationRequest | src-tauri/src/deepseek.rs:51-62 | the validation request's timeout is capped to [2000, 8000] |
| Deepseek.ValidateApiKey | src-tauri/src/deepseek.rs:64-83 | valid exactly on a success status; a rejection carries the status and the first 200 characters of the body |
| WxautoAgent.NextInterval | platform_agents/windows/wxauto_agent.py:247-251 | a number of at least 200 ms replaces the interval (as seconds); anything else, booleans included, keeps it |
| WxautoAgent.MakeEnvelope | platform_agents/windows/wxauto_agent.py:52-59 | version "1.0", the type, the payload, and the supplied id when non-empty, else a fresh one |
| WxautoAgent.PayloadsDecode | platform_agents/windows/wxauto_agent.py:68-81 | the worker's error, status and input-result payloads decode on the host to the same values |
| WxautoAgent.TrackingRecords | platform_agents/windows/wxauto_agent.py:62-65 | `send_with_ack` writes one envelope and files it under its id with no retries and the current time, keeping every other entry |
| WxautoAgent.SweepEffect | platform_agents/windows/wxauto_agent.py:288-298 | a sweep over distinct ids treats each by its age and retries, leaves other entries and state alone, and writes resends in id order |
| WxautoAgent.SweptSpec | platform_agents/windows/wxauto_agent.py:288-298 | entries younger than 3 s are untouched; due entries with 3 retries are dropped unsent; other due entries are resent unchanged with the clock reset and one more retry |
| WxautoAgent.SweepTracked | platform_agents/windows/wxauto_agent.py:288-298 | sweeping keeps the pending table consistent with its insertion order |
| WxautoAgent.SweepsBudget | platform_agents/windows/wxauto_agent.py:288-298 | over any sequence of sweeps, writes of an id plus its remaining retry budget never grow |
| WxautoAgent.ResentAtMostThreeTimes | platform_agents/windows/wxauto_agent.py:21-22 | an envelope sent with ack is written again at most three times, whatever sweeps follow |
| WxautoAgent.AckCommand | platform_agents/windows/wxauto_agent.py:238-242 | an `event.ack` removes its pending entry, changes nothing for an unknown id, and writes nothing |
| WxautoAgent.NonAckCommandAckedFirst | platform_agents/windows/wxauto_agent.py:244-245 | any other command with a truthy id is acked with ok true before anything else is written |
| WxautoAgent.DispatchAppends | platform_agents/windows/wxauto_agent.py:247-273 | a command only appends to the worker's output |
| WxautoAgent.ListenCommands | platform_agents/windows/wxauto_agent.py:247-263 | start and resume turn listening on and report "listening"; pause and stop turn it off and report "paused" and "idle" |
| WxautoAgent.BlankInputRejected | platform_agents/windows/wxauto_agent.py:265-271 | a blank chat id or text answers with a failed `input.result` and no write is attempted |
| WxautoAgent.NullChatIdIsNotBlank | platform_agents/windows/wxauto_agent.py:266-269 | a missing chat id is blank but an explicit null is not, since it renders as "None" |
| WxautoAgent.PollDedup | platform_agents/windows/wxauto_agent.py:171-188 | a key equal to the chat's last key writes nothing; otherwise the key is stored and exactly one pending `message.new` is written, which the host decodes |
| WxautoAgent.PollTwiceIsOnce | platform_agents/windows/wxauto_agent.py:171-188 | the same message polled twice is written once |
| WxautoAgent.AgentState.constructor | platform_agents/windows/wxauto_agent.py:31-43 | not listening, default interval 0.8 s, no keys, nothing pending |
| WxautoAgent.AgentState.SendWithAck | platform_agents/windows/wxauto_agent.py:62-65 | the state moves as `Tracking` says |
| WxautoAgent.AgentState.SendAck | platform_agents/windows/wxauto_agent.py:68-70 | one `event.ack` is written |
| WxautoAgent.AgentState.EmitError | platform_agents/windows/wxauto_agent.py:72-77 | one pending `agent.error` is written |
| WxautoAgent.AgentState.EmitStatus | platform_agents/windows/wxauto_agent.py:79-81 | one pending `agent.status` is written |
| WxautoAgent.AgentState.WriteInput | platform_agents/windows/wxauto_agent.py:191-231 | the paste's outcome is reported as a pending `input.result` |
| WxautoAgent.AgentState.HandleCommand | platform_agents/windows/wxauto_agent.py:233-273 | the state moves as `Command` says |
| WxautoAgent.AgentState.ProcessPending | platform_agents/windows/wxauto_agent.py:288-298 | the loop over a snapshot of pending ids moves the state as `Swept` says |
| WxautoAgent.AgentState.PollMessages | platform_agents/windows/wxauto_agent.py:147-189 | the state moves as `Polled` says |
| DbReader.Hex | src-tauri/src/ui_automation/macos/db.rs:849-855 | two characters per byte |
| DbReader.EncodeHex | src-tauri/src/ui_automation/macos/db.rs:849-855 | the loop writes exactly `Hex` |
| DbReader.DecodeHex | src-tauri/src/ui_automation/macos/db.rs:857-870 | the loop returns exactly `DecodedHex`: trimmed input, odd length or a non-hex character refused |
| DbReader.HexIsLowerHex | src-tauri/src/ui_automation/macos/db.rs:849-855 | every character written is a lower-case hex digit |
| DbReader.HexRoundTrip | src-tauri/src/ui_automation/macos/db.rs:849-870 | `decode_hex(encode_hex(b)) == b` |
| DbReader.DecodeIgnoresCase | src-tauri/src/ui_automation/macos/db.rs:857-870 | lower-casing the input changes neither the outcome nor the bytes |
| DbReader.HexdumpBytes | src-tauri/src/ui_automation/macos/db.rs:496-503 | at most one byte per token |
| DbReader.CollectHexdumpBytes | src-tauri/src/ui_automation/macos/db.rs:496-503 | the token loop collects exactly the bytes of the two-digit hex tokens, in order |
| DbReader.ExtractKeyFromFridaOutput | src-tauri/src/ui_automation/macos/db.rs:489-527 | the extraction returns exactly `FridaKey`: database-key marker, then raw-key marker, then hexdump |
| DbReader.HexdumpFallback | src-tauri/src/ui_automation/macos/db.rs:496-512 | without a usable marker line: 32 bytes when there are that many, else 16 when there are that many, else an error |
| DbReader.MarkerLineGivesKey | src-tauri/src/ui_automation/macos/db.rs:967-981 | a marker line followed by a key in hex gives that key |
| DbReader.MarkerErrorIsFinal | src-tauri/src/ui_automation/macos/db.rs:515-527 | a marker line whose hex does not decode ends extraction with that error, whatever follows |
| DbReader.UniqueBytes | src-tauri/src/ui_automation/macos/db.rs:699-705 | the number of distinct byte values |
| DbReader.Starts | src-tauri/src/ui_automation/macos/db.rs:684-697 | every qualifying start is below the bound |
| DbReader.StartsSpec | src-tauri/src/ui_automation/macos/db.rs:684-697 | starts are ascending, and a position is a start exactly when its window has enough distinct bytes |
| DbReader.ExtractWindows | src-tauri/src/ui_automation/macos/db.rs:684-697 | the loop returns exactly `Windows` |
| DbReader.ExtractKeyCandidates | src-tauri/src/ui_automation/macos/db.rs:677-682 | 32-byte windows with at least 12 distinct bytes, then 16-byte windows with at least 6 |
| DbReader.WindowsSpec | src-tauri/src/ui_automation/macos/db.rs:684-697 | the windows are exactly those at qualifying starts, each once, in start order, each of the size with enough distinct bytes |
| DbReader.KnownKeyIsCandidate | src-tauri/src/ui_automation/macos/db.rs:891-898 | a 32-byte stretch with at least 12 distinct bytes is a candidate, whatever surrounds it |
| DbReader.ColumnMatchFrom | src-tauri/src/ui_automation/macos/db.rs:786-796 | the first column from a position equal to the candidate up to ASCII case, or none |
| DbReader.FirstCandidateFrom | src-tauri/src/ui_automation/macos/db.rs:786-796 | the first candidate from a position that some column matches, or none |
| DbReader.PickColumnSpec | src-tauri/src/ui_automation/macos/db.rs:786-796 | none exactly when no column matches any candidate; otherwise the first matching candidate, returned in the column's own spelling |
| DbReader.Scores | src-tauri/src/ui_automation/macos/db.rs:717-774 | one score per table, in order |
| DbReader.BestUpTo | src-tauri/src/ui_automation/macos/db.rs:725-745 | the best so far is a scored table among those seen |
| DbReader.BestUpToSpec | src-tauri/src/ui_automation/macos/db.rs:725-745 | none exactly when no table scores; otherwise the first of the highest score |
| DbReader.BestIsUnique | src-tauri/src/ui_automation/macos/db.rs:725-745 | the best table is determined uniquely |
| DbReader.BestOf | src-tauri/src/ui_automation/macos/db.rs:725-745 | the loop keeps a later table only when its score is strictly higher, as `BestUpTo` says |
| DbReader.BestTable | src-tauri/src/ui_automation/macos/db.rs:717-774 | the loop over the tables returns `Best` |
| DbReader.LocateSessionTable | src-tauri/src/ui_automation/macos/db.rs:717-747 | the session table and its id and title columns, or an error |
| DbReader.LocateMessageTable | src-tauri/src/ui_automation/macos/db.rs:749-774 | the message table, or an error |
| DbReader.BestTableSpec | src-tauri/src/ui_automation/macos/db.rs:717-774 | the located table is the first of the highest score among those with both columns; none exactly when no table has both |
| DbReader.SessionRows | src-tauri/src/ui_automation/macos/db.rs:57-75 | the newest 200 (id, title) rows at most, as chats of unknown kind |
| DbReader.CollectSessionChats | src-tauri/src/ui_automation/macos/db.rs:76-90 | the `seen` loop keeps the first chat of each non-blank id |
| DbReader.ListRecentChats | src-tauri/src/ui_automation/macos/db.rs:57-90 | returns exactly `RecentSessionChats` |
| DbReader.RecentSessionChatsProperties | src-tauri/src/ui_automation/macos/db.rs:57-90 | no blank or repeated id, the first row of each id among the newest 200, none lost; an error exactly when no row has a usable id |
| DbReader.Newest | src-tauri/src/ui_automation/macos/db.rs:110-140 | the row with the latest key strictly after the cursor, the first of equal keys; none exactly when no row is later |
| DbReader.PollAdvances | src-tauri/src/ui_automation/macos/db.rs:110-162 | a returned message moves the cursor to its key, later than before and than no row; no message leaves the cursor and no row is later |
| DbReader.PollTwiceIsOnce | src-tauri/src/ui_automation/macos/db.rs:110-162 | polling again from the new cursor finds nothing |
| DbReader.ExampleTableLocated | src-tauri/src/ui_automation/macos/db.rs:938-964 | the test's message table is located |
| DbReader.PollLatestExample | src-tauri/src/ui_automation/macos/db.rs:938-964 | the unit test: the first poll reports the later row, the second nothing |
| DbReader.FridaCooldown | src-tauri/src/ui_automation/macos/db.rs:225-237 | an attempt is allowed exactly 30 s or more after the last one, and always when none was made |
| DbReader.MacosDb.constructor | src-tauri/src/ui_automation/macos/db.rs:212-223 | no cursor position and no Frida attempt yet |
| DbReader.MacosDb.PollLatestMessage | src-tauri/src/ui_automation/macos/db.rs:92-162 | the cursor and result are as `PollLatest` says; the Frida clock is untouched |
| DbReader.MacosDb.ShouldAttemptFrida | src-tauri/src/ui_automation/macos/db.rs:225-237 | true exactly when due, recording the time only then |
| AxPath.Step | src-tauri/src/ui_automation/macos/ax_path.rs:14-24 | the step holds the given roles, index and title fragment |
| AxPath.MatchesStepTitle | src-tauri/src/ui_automation/macos/ax_path.rs:48-62 | without a fragment the title plays no part; with a non-empty one a missing title never matches; a node matches only with a role in the step's list |
| AxPath.Matching | src-tauri/src/ui_automation/macos/ax_path.rs:33-39 | the matching children, each a child that matches the step |
| AxPath.MatchingNth | src-tauri/src/ui_automation/macos/ax_path.rs:33-43 | the k-th match is the child preceded by exactly k matching children |
| AxPath.MatchAt | src-tauri/src/ui_automation/macos/ax_path.rs:33-43 | the index-th matching child, or none when out of range |
| AxPath.ResolvePath | src-tauri/src/ui_automation/macos/ax_path.rs:26-46 | the loop returns exactly `Resolve` |
| AxPath.ResolveEmpty | src-tauri/src/ui_automation/macos/ax_path.rs:31-45 | no steps resolve to the root |
| AxPath.ResolveSnoc | src-tauri/src/ui_automation/macos/ax_path.rs:33-43 | one more step moves from the node the earlier steps reach |
| AxPath.ResolveOutOfRange | src-tauri/src/ui_automation/macos/ax_path.rs:40-42 | an index beyond the matches fails the path |
| AxPath.ResolveDepth | src-tauri/src/ui_automation/macos/ax_path.rs:32-45 | a found node is exactly as many levels below the root as there are steps, and matches the last step |
| AxPath.SecondMatchByRole | src-tauri/src/ui_automation/macos/ax_path.rs:88-109 | the unit test: index 1 picks the second AXGroup |
| AxPath.TitleContainsExample | src-tauri/src/ui_automation/macos/ax_path.rs:111-132 | the unit test: "Messages" skips "ChatList" and picks "MessagesPane" |
| AxPath.OutOfRangeExample | src-tauri/src/ui_automation/macos/ax_path.rs:134-148 | the unit test: index 2 among one match finds nothing |
| StaticUiPaths.AllPaths | src-tauri/src/ui_automation/macos/static_ui_paths.rs:3-44 | six paths |
| StaticUiPaths.StaticPathsShape | src-tauri/src/ui_automation/macos/static_ui_paths.rs:3-44 | two alternatives per list, A before B; every path starts with the first AXSplitGroup, has three or four steps, and no title fragment |
| StaticUiPaths.AlternativesRelated | src-tauri/src/ui_automation/macos/static_ui_paths.rs:3-40 | B skips A's scroll area for sessions and messages; input B adds one group; sessions are under group 0, messages and input under group 1 |
| StaticUiPaths.AllowDynamicScanSpec | src-tauri/src/ui_automation/macos/static_ui_paths.rs:46-52 | false exactly when the value is "0"; unset and "1" allow it |
| AxSnapshot.OptString | src-tauri/src/ui_automation/macos/ax_snapshot.rs:64-66 | null exactly when absent, else the string |
| AxSnapshot.OptBool | src-tauri/src/ui_automation/macos/ax_snapshot.rs:47-53 | null exactly when absent, else the flag |
| AxSnapshot.FrameJson | src-tauri/src/ui_automation/macos/ax_snapshot.rs:36-46 | null exactly when absent, else an object of x, y, width and height |
| AxSnapshot.NodeJson | src-tauri/src/ui_automation/macos/ax_snapshot.rs:27-61 | exactly the seven keys, children as given |
| AxSnapshot.SnapshotTree | src-tauri/src/ui_automation/macos/ax_snapshot.rs:21-62 | the recursion with its child loop returns exactly `Snapshot` |
| AxSnapshot.SnapshotChildren | src-tauri/src/ui_automation/macos/ax_snapshot.rs:54-59 | one entry per child, in order, each the child's snapshot with the given budget |
| AxSnapshot.SnapshotOfKids | src-tauri/src/ui_automation/macos/ax_snapshot.rs:54-61 | a node holding, one by one, the children's snapshots one level shallower is the snapshot itself |
| AxSnapshot.SnapshotNode | src-tauri/src/ui_automation/macos/ax_snapshot.rs:27-61 | seven keys; attributes copied, absent ones null; no children at depth 0, else one per child in order, one level shallower |
| AxSnapshot.SnapshotLevels | src-tauri/src/ui_automation/macos/ax_snapshot.rs:55-58 | the snapshot is at most depth+1 levels deep |
| AxSnapshot.SnapshotIncludesChild | src-tauri/src/ui_automation/macos/ax_snapshot.rs:101-120 | the unit test: the child appears with its title and frame |
| AxSnapshot.SnapshotDepthLimit | src-tauri/src/ui_automation/macos/ax_snapshot.rs:122-143 | the unit test: depth 1 cuts off the grandchild |
| UiPathsStore.PathStepFromLearned | src-tauri/src/ui_automation/macos/ui_paths_store.rs:128-134 | roles and fragment kept; the index truncated to 32 bits |
| UiPathsStore.PathStepToOwned | src-tauri/src/ui_automation/macos/ui_paths_store.rs:172-178 | roles, fragment and index kept |
| UiPathsStore.UiPathsFromSpec | src-tauri/src/ui_automation/macos/ui_paths_store.rs:154-170 | each of the three paths keeps its length and order, each step its roles, fragment and index |
| UiPathsStore.StoredFromLearned | src-tauri/src/ui_automation/macos/ui_paths_store.rs:107-126 | version 1 and the clock's seconds, or the clock's error |
| UiPathsStore.LearnedRoundTrip | src-tauri/src/ui_automation/macos/ui_paths_store.rs:107-178 | saving then loading gives the learned paths back when every index fits in 32 bits |
| UiPathsStore.LearnedIndexWraps | src-tauri/src/ui_automation/macos/ui_paths_store.rs:128-134 | an index of 2^32 comes back as 0 |
| UiPathsStore.StatusFromStored | src-tauri/src/ui_automation/macos/ui_paths_store.rs:180-197 | saved, with saved_at, version and the paths file; the tree file exactly when it exists |
| UiPathsStore.ReadStatusSpec | src-tauri/src/ui_automation/macos/ui_paths_store.rs:60-83 | a missing paths file is "not saved" with every other field empty; other read failures and undecodable files are errors; a decoded file is saved |
| UiPathsStore.PathsSlot.constructor | src-tauri/src/ui_automation/macos/ui_paths_store.rs:32-34 | the slot starts empty |
| UiPathsStore.PathsSlot.SetPaths | src-tauri/src/ui_automation/macos/ui_paths_store.rs:36-44 | `get_paths` after `set_paths(p)` returns `p` |
| UiPathsStore.PathsSlot.LoadFromDisk | src-tauri/src/ui_automation/macos/ui_paths_store.rs:46-58 | a missing file gives no paths and leaves the slot; a decoded file is converted, stored and returned; failures are errors |
| UiPathsStore.PathsSlot.SaveLearnedPaths | src-tauri/src/ui_automation/macos/ui_paths_store.rs:85-105 | each failing stage gives its error; only when all succeed is the slot set and both locations returned |
| UiPathsStore.ConvertsStoredExample | src-tauri/src/ui_automation/macos/ui_paths_store.rs:204-233 | the unit test: one step per path converts with its index, fragment and roles |
| SessionList.Summaries | src-tauri/src/ui_automation/macos/session_list.rs:31-43 | each title trimmed, as a chat |
| SessionList.CollectRecentChats | src-tauri/src/ui_automation/macos/session_list.rs:28-46 | the loop never fails and returns `RecentChats` |
| SessionList.FirstChatsSound | src-tauri/src/ui_automation/windows/session_list.rs:29-44 | no blank or repeated id outside `seen`, never longer than the input |
| SessionList.FirstChatsFirstOccurrence | src-tauri/src/ui_automation/windows/session_list.rs:29-44 | each chat is the first with its id, in input order |
| SessionList.FirstChatsComplete | src-tauri/src/ui_automation/windows/session_list.rs:29-44 | every non-blank unseen id is kept |
| SessionList.FirstChatsProperties | src-tauri/src/ui_automation/windows/session_list.rs:28-46 | no blank or repeated id, first occurrences in order, none lost, never longer than the input |
| SessionList.RecentChatsProperties | src-tauri/src/ui_automation/macos/session_list.rs:28-46 | id and title are the trimmed non-blank title, kind unknown; no title twice; first occurrences in order; every non-blank title present; never longer than the input |
| SessionList.DuplicateTitlesExample | src-tauri/src/ui_automation/macos/tests.rs:12-17 | the unit test: "A", "A", "B" gives two chats |
| Uia.IsWechatProcessNormalised | src-tauri/src/ui_automation/windows/uia.rs:47-53 | recognition ignores ASCII case and surrounding whitespace |
| Uia.FirstWechat | src-tauri/src/ui_automation/windows/uia.rs:38-44 | the position of the first WeChat window, none before it |
| Uia.FindWechatHwnd | src-tauri/src/ui_automation/windows/uia.rs:38-44 | none exactly when no window is WeChat's; otherwise the handle of the first one |
| Uia.MockUia.constructor | src-tauri/src/ui_automation/windows/uia.rs:11-22 | no windows |
| Uia.MockUia.WithWindow | src-tauri/src/ui_automation/windows/uia.rs:11-22 | one window with handle 1001 |
| Uia.MockUia.AddWindow | src-tauri/src/ui_automation/windows/uia.rs:24-27 | appended, existing windows untouched |
| Uia.WeixinIsWechat | src-tauri/src/ui_automation/windows/uia.rs:47-53 | "Weixin.exe" is a WeChat process |
| Uia.WeixinFound | src-tauri/src/ui_automation/windows/tests.rs:3-8 | the unit test: a "Weixin.exe" window is found as 1001 |
| Uia.FindIgnoresLaterWindows | src-tauri/src/ui_automation/windows/uia.rs:38-44 | a window added after a WeChat window does not change what is found |
| Uia.FindWechatWindows | src-tauri/src/ui_automation/windows/uia.rs:78-101 | the main-class windows when that search finds some, else all top-level windows, else an error |
| Uia.LongestLast | src-tauri/src/ui_automation/windows/uia.rs:108-116 | the longest name, the last of equally long ones (`max_by_key`) |
| Uia.FirstMainClass | src-tauri/src/ui_automation/windows/uia.rs:103-107 | the first window of WeChat's main class, none before it |
| Uia.PickSpec | src-tauri/src/ui_automation/windows/uia.rs:103-116 | the first main-class window wins; else the longest-named, last among ties; no windows is an error |
| Uia.PickWechatWindow | src-tauri/src/ui_automation/windows/uia.rs:78-116 | the two loops return exactly the search followed by `Pick` |
| Uia.FindMainClass | src-tauri/src/ui_automation/windows/uia.rs:104-110 | the index of the first window of WeChat's main class, or the count when there is none |
| Uia.FindLongestLast | src-tauri/src/ui_automation/windows/uia.rs:111-114 | the scan ends on a window with the longest name, and no later window has a name that long |
| Uia.PickPrefersMainClass | src-tauri/src/ui_automation/windows/uia.rs:103-116 | a main-class window wins over a longer-named one |
| Ax.FindWechatApp | src-tauri/src/ui_automation/macos/ax.rs:28-33 | only "com.tencent.xinWeChat" can be returned, and it is returned exactly when present |
| Ax.FindWechatAppExact | src-tauri/src/ui_automation/macos/ax.rs:32 | the match is case-sensitive |
| Ax.FindWechatAppAnywhere | src-tauri/src/ui_automation/macos/ax.rs:28-33 | found wherever it stands in the list |
| Ax.MockAx.constructor | src-tauri/src/ui_automation/macos/ax.rs:5-8 | no bundles |
| Ax.MockAx.WithBundle | src-tauri/src/ui_automation/macos/ax.rs:10-14 | exactly one bundle |
| Ax.MockAx.AddBundle | src-tauri/src/ui_automation/macos/ax.rs:16-19 | appended |
| Ax.FindsWechatInMock | src-tauri/src/ui_automation/macos/tests.rs:6-10 | the unit test: a mock holding WeChat's id finds it |
| Layout.Walk | platform_agents/windows/vendor/wxauto/wxauto/ui/layout.py:201-223 | the walk starts with the control at its depth |
| Layout.PushChildren | platform_agents/windows/vendor/wxauto/wxauto/ui/layout.py:220-222 | pushing the children reversed makes them come off first to last, each walked in full, before the rest of the stack |
| Layout.PopAndPush | platform_agents/windows/vendor/wxauto/wxauto/ui/layout.py:213-222 | the popped control comes first, then what the stack still yields |
| Layout.IterControlsStack | platform_agents/windows/vendor/wxauto/wxauto/ui/layout.py:210-223 | the stack traversal yields exactly the pre-order walk `IterControls` |
| Layout.WalkSound | platform_agents/windows/vendor/wxauto/wxauto/ui/layout.py:210-223 | every yielded control lies as many levels below the start as its depth says, never beyond the limit |
| Layout.WalkComplete | platform_agents/windows/vendor/wxauto/wxauto/ui/layout.py:210-223 | every child of a control above the limit is yielded, one level deeper |
| Layout.IterControlsStart | platform_agents/windows/vendor/wxauto/wxauto/ui/layout.py:210-216 | the root comes first at depth 0; limit 0 yields only the root |
| Layout.FirstWhere | platform_agents/windows/vendor/wxauto/wxauto/ui/layout.py:174-180 | none exactly when nothing matches; otherwise the first match in walk order |
| Layout.CountWhere | platform_agents/windows/vendor/wxauto/wxauto/ui/layout.py:150-158 | never more than the controls walked |
| Layout.FindFirstControlMatchingLoop | platform_agents/windows/vendor/wxauto/wxauto/ui/layout.py:174-180 | the loop returns the first match of the walk |
| Layout.NonEmptyNames | platform_agents/windows/vendor/wxauto/wxauto/ui/layout.py:140-142 | exactly the listed names that are non-empty |
| Layout.CountControlsByNameLoop | platform_agents/windows/vendor/wxauto/wxauto/ui/layout.py:150-158 | the loop counts the controls of the type with a listed non-empty name |
| Layout.NamedSearches | platform_agents/windows/vendor/wxauto/wxauto/ui/layout.py:137-171 | with no non-empty name: None, False and 0; a found control has the type and a listed non-empty name |
| Layout.AncestorWithSpec | platform_agents/windows/vendor/wxauto/wxauto/ui/layout.py:183-191 | the nearest of the control and its first ancestors (at most 10 checked) that satisfies the test; none exactly when none does |
| Layout.FindAncestorWith | platform_agents/windows/vendor/wxauto/wxauto/ui/layout.py:183-191 | the parent-chain loop returns `AncestorWith` |
| Layout.FromAnchorsSound | platform_agents/windows/vendor/wxauto/wxauto/ui/layout.py:34-87 | whatever the anchors find passes the container test |
| Layout.FromTwoAnchors | platform_agents/windows/vendor/wxauto/wxauto/ui/layout.py:34-87 | first anchor's ancestor, else second's, else the whole-tree scan |
| Layout.SessionDiscoveryOrder | platform_agents/windows/vendor/wxauto/wxauto/ui/layout.py:34-59 | the session list's ancestor, else the search box's, else the first control that looks like a session pane |
| Layout.SessionContainerSound | platform_agents/windows/vendor/wxauto/wxauto/ui/layout.py:112-117 | a session pane found holds a named search box and a named session list |
| Layout.ChatContainerSound | platform_agents/windows/vendor/wxauto/wxauto/ui/layout.py:120-128 | a chat pane found holds an edit box and a named message list or send button |
| Layout.NavigationDiscovery | platform_agents/windows/vendor/wxauto/wxauto/ui/layout.py:90-109 | the nearest ancestor of the first navigation button with three named ones, else its parent; without one, the first control with three |
| Layout.SampleFullWalk | platform_agents/windows/tests/test_wxauto_layout.py:50-74 | the sample window is walked in pre-order |
| Layout.SampleSessionContainer | platform_agents/windows/tests/test_wxauto_layout.py:50-74 | the session pane of the sample is found |
| Layout.SampleChatContainer | platform_agents/windows/tests/test_wxauto_layout.py:50-74 | the chat pane of the sample is found |
| Layout.SampleNavigationContainer | platform_agents/windows/tests/test_wxauto_layout.py:50-74 | the navigation pane of the sample is found |
| Layout.SampleDiscovery | platform_agents/windows/tests/test_wxauto_layout.py:50-74 | the unit test: `discover_main_controls` returns the navigation, session and chat panes |
| Layout.UnnamedNeverMatches | platform_agents/windows/vendor/wxauto/wxauto/ui/layout.py:137-147 | an unnamed control never matches a named search |
| Layout.UnnamedPaneRejected | platform_agents/windows/tests/test_layout_fallback.py:87-96 | the unit test: a pane with an unnamed edit box and list is not a session pane |
| Build.ShouldBundleSpec | src-tauri/build.rs:37-46 | bundled exactly when WEREPLY_BUNDLE_PYTHON is "1" or PROFILE is "release" |
| Build.PreparePlanSkip | src-tauri/build.rs:48-112 | skipped exactly when marker and python.exe exist; otherwise the marker is written last, right after pip install |
| Build.PreparePlanDownloads | src-tauri/build.rs:48-134 | a download or removal happens exactly when its file or directory calls for it |
| Build.FindPthFile | src-tauri/build.rs:204-218 | an error exactly when no entry is a `python*._pth` name; otherwise the first such entry |
| Build.PthLines | src-tauri/build.rs:176-196 | never empty |
| Build.UncommentLines | src-tauri/build.rs:176-187 | each `#import site` line uncommented in place, noting whether any line imports site |
| Build.RewritePthLines | src-tauri/build.rs:176-196 | the loop and pushes produce exactly `PthLines` |
| Build.EnsurePthAllowsSitePackages | src-tauri/build.rs:171-202 | the rewritten file is `PthRewrite` of its contents |
| Build.PthLinesSpec | src-tauri/build.rs:176-196 | lines kept in place, commented `import site` uncommented; `Lib\site-packages` appended exactly when no line trims to it; then `import site` exactly when none is present |
| Build.PthLinesIdempotent | src-tauri/build.rs:176-196 | rewriting the rewritten lines changes nothing |
| Build.PthLinesFixed | src-tauri/build.rs:176-196 | lines with both entries and no commented `import site` are written back unchanged |
| Build.PthRewriteIdempotent | src-tauri/build.rs:171-202 | the file rewrite is idempotent when no line ends in a bare carriage return |
| Build.RewriteXCrOnce | src-tauri/build.rs:176-200 | the first rewrite of "x\r" keeps the line with its carriage return and appends both entries |
| Build.PthRewriteNotIdempotent | src-tauri/build.rs:176-200 | the rewrite as written is not idempotent on "x\r" |
| Build.CleanLine | src-tauri/build.rs:176 | a line stripped of trailing carriage returns holds no line break |
| Build.PthRewriteCleanIdempotent | src-tauri/build.rs:171-202 | with each line's trailing carriage returns removed, the rewrite is idempotent on every file |

## Left out

- Process and stream plumbing is not modelled: spawning the worker, the tokio reader and writer tasks and channels, the Python stdin thread and main loop. The read loop is a function over a sequence of read events.
- Network, database and keychain calls are parameters, not models: the reqwest exchange, SQLCipher open and queries, the keyring, Tauri `emit` and path resolution, logging, and build.rs downloading, unzipping and pip installation.
- serde_json's text parser is a parameter `parse`. Serialisation failures are not modelled.
- `Ipc.DecodeEnvelope` and the payload decoders accept only the JSON object form. serde's derived `Deserialize` also accepts a struct written as an array of its fields in declaration order (`["1.0","agent.ready","a",1,{}]`), which the host acks and handles but the model reports as `PROTOCOL_ERROR`. It also rejects an object with a duplicated field, which the model cannot see because a parsed object is a map and `parse` has already collapsed the duplicates.
- UI Automation and Accessibility FFI are not modelled: the real watchers and writers, `UiaClient` searches, `AutomationManager`. Their results (windows, trees, titles) are parameters.
- The session-list test doubles (`MockAxSessionList`, `MockSessionList`) only return their titles. `collect_recent_chats` takes the titles directly.
- Locks (`Mutex`, `RwLock`, `OnceLock`) and their poisoning are left out. State is single-threaded, and the spawned generation is a separate step.
- Floating-point is kept opaque. Temperature and top_p are reals. Snapshot frames carry no NaN or infinity. The worker's poll interval is a real number of seconds.
- UUIDs, `SystemTime` and `time.time()` are parameters.
- An environment value that is not valid Unicode counts as unset.
- `Layout`: only the stack path of `_iter_controls` is modelled. The `Walk`-based path relies on the foreign UI Automation iterator; when that raises midway, the fallback repeats controls already yielded.
- `Layout`: the exceptions that `_safe_parent`, `GetChildren` and `Name` swallow are folded into the tree functions (no parent, no children, empty name).
- The test-only control searches in `test_wxauto_layout.py:108-132` (Table and Document controls) are not modelled. Neither are the type-only and unnamed-match expectations in `test_layout_fallback.py:45-85`. `layout.py` implements none of them.
- The chat pane's send-button fallback test is not reproduced as an example; `Layout.ChatContainerSound` states the rule it exercises.
- The record types of `ax_learn.rs` are not part of this model. The fields of `LearnedPaths` and `PathStepSpec` are inferred from their uses in `ui_paths_store.rs`.
- `config.rs`, `secret.rs`, `logging.rs`, `bin/generate_bindings.rs` and `tests/bindings_generate.rs` are not modelled: they are duplicated config, keychain I/O, logging and binding generation.
- The worker's `ensure_wechat`, `get_current_chat_title` and `extract_*` helpers read the automation library. Their results are the input of a poll.
- Suggestion ids are random UUIDs and are not modelled.
- `Build.PthRewriteIdempotent` requires that no line of the file ends in a bare carriage return, because the rewrite as written is not idempotent otherwise (see Findings).
- `State.RecordProperties` states the context's last text only for a positive message limit, because a limit of 0 empties every history.

## Where the code and its description differ

The model follows the code in each case:

- There is no worker supervisor, restart or backoff, and no generation retry or coalescing.
- Only the worker tracks acknowledgements. The host acks every parsed envelope and tracks nothing.
- Generation uses the uncapped `timeout_ms`; only the key validation caps it.
- A failed HTTP exchange makes `generate_suggestions` return an error, not the fallback. The pipeline then reports SUGGESTION_EMPTY.
- A Frida marker line with invalid hex ends key extraction with an error. It does not fall through to the next marker.
- A learned path index is truncated to 32 bits when saved.

## Findings

| source | as written | input that shows it | evidently intended | confidence | as-written member | corrected member |
|---|---|---|---|---|---|---|
| src-tauri/build.rs:176-200 | lines are read with `str::lines`, which strips a '\r' only before '\n'; each line is written back followed by '\n' | a `._pth` file "x\r": the first run writes "x\r\nLib\site-packages\nimport site\n", and the second run reads the first line as "x" and writes a different file | running the build twice leaves the file as the first run wrote it | not executed; low (embedded-Python `._pth` files rarely end in a bare '\r') | Build.PthRewriteNotIdempotent | Build.PthRewriteCleanIdempotent |
