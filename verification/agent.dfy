/**
 * The host's side of the worker connection: the read loop over the worker's
 * output lines, and the handling of each envelope type as a change of the
 * shared status plus UI events.
 *
 * Spawning the worker, its pipes and the writer task are not modelled. The
 * worker's output is a sequence of read events. What the read task sends is
 * one ordered trace of acknowledgements and UI events; an acknowledgement is
 * recorded as the id it acknowledges (the envelope built for it is
 * `Ipc.AckFor(id, true, "", ...)`, whose own id and timestamp are fresh).
 */
module Agent {
  import opened Base
  import opened Text
  import opened Json
  import opened Types
  import opened Ipc
  import opened State
  import opened MessagePipeline

  const ProtocolError: ErrorPayload := ErrorPayload("PROTOCOL_ERROR", "Agent 消息格式错误", true)
  const DisconnectedMessage: string := "Agent 连接断开"
  const AgentDisconnected: ErrorPayload := ErrorPayload("AGENT_DISCONNECTED", DisconnectedMessage, true)

  /** What one read from the worker's standard output gives. */
  datatype ReadEvent = Line(text: string) | EndOfStream | ReadFailure

  /** `agent.ready`'s platform names. */
  function PlatformOf(name: string): Platform {
    if name == "windows" then Windows else if name == "macos" then Macos else UnknownPlatform
  }

  /** `agent.status`'s state names: only "listening", "paused" and "error" are
      recognised; everything else, "generating" included, means idle. */
  function RuntimeOf(name: string): RuntimeState {
    if name == "listening" then Listening
    else if name == "paused" then Paused
    else if name == "error" then Error
    else Idle
  }

  /** The worker can report every state by its wire name except `Generating`. */
  lemma RuntimeNames(s: RuntimeState)
    ensures s != Generating ==> RuntimeOf(StateName(s)) == s
    ensures RuntimeOf(StateName(Generating)) == Idle
  {
  }

  /** The result of handling one envelope. */
  datatype Handled = Handled(view: AppView, events: seq<UiEvent>, job: Option<GenerationJob>)

  /** `handle_envelope`: a payload that does not decode is ignored. */
  function HandleEnvelope(v: AppView, e: Envelope): Handled {
    if e.kind == "agent.ready" then
      match DecodeAgentReady(e.payload)
      case None => Handled(v, [], None)
      case Some(p) =>
        var v1 := WithPlatform(v, PlatformOf(p.platform));
        var v2 := WithConnected(v1, true, "");
        Handled(v2, [StatusChanged(v1.status), StatusChanged(v2.status)], None)
    else if e.kind == "agent.status" then
      match DecodeAgentStatus(e.payload)
      case None => Handled(v, [], None)
      case Some(p) =>
        var v1 := WithRuntime(v, RuntimeOf(p.state), p.detail);
        Handled(v1, [StatusChanged(v1.status)], None)
    else if e.kind == "agent.error" then
      match DecodeAgentError(e.payload)
      case None => Handled(v, [], None)
      case Some(p) =>
        var v1 := WithRuntime(v, Error, p.message);
        Handled(v1, [StatusChanged(v1.status), ErrorRaised(ErrorPayload(p.code, p.message, p.recoverable))], None)
    else if e.kind == "message.new" then
      match DecodeMessageNew(e.payload)
      case None => Handled(v, [], None)
      case Some(p) =>
        var i := Incoming(v, p);
        Handled(i.view, i.events, i.job)
    else if e.kind == "input.result" then
      match DecodeInputResult(e.payload)
      case None => Handled(v, [], None)
      case Some(p) =>
        if p.ok then Handled(v, [], None)
        else Handled(v, [ErrorRaised(ErrorPayload("WRITE_FAILED", p.error, true))], None)
    else Handled(v, [], None)
  }

  method HandleEnvelopeIn(s: AppState, e: Envelope) returns (events: seq<UiEvent>, job: Option<GenerationJob>)
    modifies s
    ensures Handled(s.View(), events, job) == HandleEnvelope(old(s.View()), e)
  {
    events, job := [], None;
    if e.kind == "agent.ready" {
      var p := DecodeAgentReady(e.payload);
      if p.Some? {
        s.UpdatePlatform(PlatformOf(p.value.platform));
        events := events + [StatusChanged(s.status)];
        s.UpdateAgentConnected(true, "");
        events := events + [StatusChanged(s.status)];
      }
    } else if e.kind == "agent.status" {
      var p := DecodeAgentStatus(e.payload);
      if p.Some? {
        s.UpdateState(RuntimeOf(p.value.state), p.value.detail);
        events := [StatusChanged(s.status)];
      }
    } else if e.kind == "agent.error" {
      var p := DecodeAgentError(e.payload);
      if p.Some? {
        s.UpdateState(Error, p.value.message);
        events := [StatusChanged(s.status), ErrorRaised(ErrorPayload(p.value.code, p.value.message, p.value.recoverable))];
      }
    } else if e.kind == "message.new" {
      var p := DecodeMessageNew(e.payload);
      if p.Some? {
        job, events := HandleIncomingMessage(s, p.value);
      }
    } else if e.kind == "input.result" {
      var p := DecodeInputResult(e.payload);
      if p.Some? && !p.value.ok {
        events := [ErrorRaised(ErrorPayload("WRITE_FAILED", p.value.error, true))];
      }
    }
  }

  /** The status transitions: `agent.ready` sets the platform and connects without
      touching state or error; `agent.status` sets the mapped state with its detail
      as the error; `agent.error` sets `Error` and re-emits code, message and
      recoverable flag; `input.result` only ever emits `WRITE_FAILED`, and only when
      not ok; unknown types do nothing. */
  lemma HandleEnvelopeTransitions(v: AppView, e: Envelope)
    ensures e.kind == "agent.ready" && DecodeAgentReady(e.payload).Some? ==>
      var h := HandleEnvelope(v, e);
      && h.view.status == Status(v.status.state, PlatformOf(DecodeAgentReady(e.payload).value.platform), true, v.status.lastError)
      && h.view == v.(status := h.view.status)
    ensures e.kind == "agent.status" && DecodeAgentStatus(e.payload).Some? ==>
      var p := DecodeAgentStatus(e.payload).value;
      HandleEnvelope(v, e).view == WithRuntime(v, RuntimeOf(p.state), p.detail)
    ensures e.kind == "agent.error" && DecodeAgentError(e.payload).Some? ==>
      var p := DecodeAgentError(e.payload).value;
      var h := HandleEnvelope(v, e);
      && h.view == WithRuntime(v, Error, p.message)
      && h.events[|h.events| - 1] == ErrorRaised(ErrorPayload(p.code, p.message, p.recoverable))
    ensures e.kind == "input.result" ==>
      var h := HandleEnvelope(v, e);
      && h.view == v && h.job == None
      && (h.events != [] <==> DecodeInputResult(e.payload).Some? && !DecodeInputResult(e.payload).value.ok)
      && (h.events != [] ==> h.events == [ErrorRaised(ErrorPayload("WRITE_FAILED", DecodeInputResult(e.payload).value.error, true))])
    ensures e.kind !in {"agent.ready", "agent.status", "agent.error", "message.new", "input.result"} ==>
      HandleEnvelope(v, e) == Handled(v, [], None)
    ensures HandleEnvelope(v, e).job.Some? ==> e.kind == "message.new"
  {
  }

  // ---------------------------------------------------------------- the read loop

  /** What the read task sends out, in the order it sends it: an
      acknowledgement queued for the writer task, or a UI event. */
  datatype Output = Ack(id: string) | Ui(event: UiEvent)

  /** Everything the read loop does over a run of read events: the final state,
      its output in order, and the spawned jobs. */
  datatype Run = Run(view: AppView, out: seq<Output>, jobs: seq<GenerationJob>)

  function Uis(events: seq<UiEvent>): seq<Output> {
    if events == [] then [] else [Ui(events[0])] + Uis(events[1..])
  }

  function Prepend(out: seq<Output>, jobs: seq<GenerationJob>, r: Run): Run {
    Run(r.view, out + r.out, jobs + r.jobs)
  }

  /** One line of output: blank lines are skipped; a parsed envelope is
      acknowledged and then handled; anything else raises `PROTOCOL_ERROR`. */
  function LineStep(v: AppView, line: string, parse: string -> Option<Json>): Run {
    var trimmed := Trim(line);
    if trimmed == [] then Run(v, [], [])
    else
      match ParseEnvelope(trimmed, parse)
      case Ok(e) =>
        var h := HandleEnvelope(v, e);
        Run(h.view, [Ack(e.id)] + Uis(h.events), OptionSeq(h.job))
      case Err(_) => Run(v, [Ui(ErrorRaised(ProtocolError))], [])
  }

  function OptionSeq<T>(o: Option<T>): seq<T> {
    match o
    case None => []
    case Some(x) => [x]
  }

  /** The read loop: lines until the end of the stream, which reports the
      disconnection, or a read failure, which stops silently. */
  function ReadLoop(v: AppView, input: seq<ReadEvent>, parse: string -> Option<Json>): Run
    decreases |input|
  {
    if input == [] then Run(v, [], [])
    else
      match input[0]
      case Line(text) =>
        var step := LineStep(v, text, parse);
        Prepend(step.out, step.jobs, ReadLoop(step.view, input[1..], parse))
      case EndOfStream =>
        var w := WithConnected(v, false, DisconnectedMessage);
        Run(w, [Ui(ErrorRaised(AgentDisconnected)), Ui(StatusChanged(w.status))], [])
      case ReadFailure => Run(v, [], [])
  }

  lemma UisPair(a: UiEvent, b: UiEvent)
    ensures Uis([a, b]) == [Ui(a), Ui(b)]
  {
    assert [b][1..] == [];
    assert Uis([b]) == [Ui(b)];
    assert [a, b][1..] == [b];
  }

  lemma PrependTwice(o1: seq<Output>, j1: seq<GenerationJob>, o2: seq<Output>, j2: seq<GenerationJob>, r: Run)
    ensures Prepend(o1, j1, Prepend(o2, j2, r)) == Prepend(o1 + o2, j1 + j2, r)
  {
    assert o1 + (o2 + r.out) == o1 + o2 + r.out;
    assert j1 + (j2 + r.jobs) == j1 + j2 + r.jobs;
  }

  /** One line: skip, or acknowledge and then handle, or report a protocol error. */
  method HandleLine(s: AppState, text: string, parse: string -> Option<Json>)
      returns (out: seq<Output>, jobs: seq<GenerationJob>)
    modifies s
    ensures Run(s.View(), out, jobs) == LineStep(old(s.View()), text, parse)
  {
    out, jobs := [], [];
    var trimmed := Trim(text);
    if trimmed == [] {
      return;
    }
    match ParseEnvelope(trimmed, parse)
    case Ok(envelope) =>
      out := [Ack(envelope.id)];
      var events, job := HandleEnvelopeIn(s, envelope);
      out := out + Uis(events);
      jobs := OptionSeq(job);
    case Err(_) =>
      out := [Ui(ErrorRaised(ProtocolError))];
  }

  /** The end of the agent's output: the disconnection error, then the status
      with the agent marked disconnected. */
  method ReportDisconnect(s: AppState) returns (events: seq<UiEvent>)
    modifies s
    ensures s.View() == WithConnected(old(s.View()), false, DisconnectedMessage)
    ensures events == [ErrorRaised(AgentDisconnected), StatusChanged(s.View().status)]
  {
    events := [ErrorRaised(AgentDisconnected)];
    s.UpdateAgentConnected(false, DisconnectedMessage);
    events := events + [StatusChanged(s.status)];
  }

  /** The read task, as a loop over the read events. */
  method ReadLines(s: AppState, input: seq<ReadEvent>, parse: string -> Option<Json>)
      returns (out: seq<Output>, jobs: seq<GenerationJob>)
    modifies s
    ensures Run(s.View(), out, jobs) == ReadLoop(old(s.View()), input, parse)
  {
    out, jobs := [], [];
    var i := 0;
    while i < |input|
      invariant 0 <= i <= |input|
      invariant ReadLoop(old(s.View()), input, parse) == Prepend(out, jobs, ReadLoop(s.View(), input[i..], parse))
      decreases |input| - i
    {
      ReadLoopAt(s.View(), input, i, parse);
      match input[i]
      case Line(text) =>
        var stepOut, stepJobs := HandleLine(s, text, parse);
        PrependTwice(out, jobs, stepOut, stepJobs, ReadLoop(s.View(), input[i + 1..], parse));
        out, jobs := out + stepOut, jobs + stepJobs;
        i := i + 1;
      case EndOfStream =>
        var endEvents := ReportDisconnect(s);
        UisPair(endEvents[0], endEvents[1]);
        out := out + Uis(endEvents);
        return;
      case ReadFailure =>
        return;
    }
    assert input[i..] == [];
  }

  /** The read loop from the `i`-th read event on, one step unfolded. */
  lemma ReadLoopAt(v: AppView, input: seq<ReadEvent>, i: nat, parse: string -> Option<Json>)
    requires i < |input|
    ensures ReadLoop(v, input[i..], parse) ==
      match input[i]
      case Line(text) =>
        var step := LineStep(v, text, parse);
        Prepend(step.out, step.jobs, ReadLoop(step.view, input[i + 1..], parse))
      case EndOfStream =>
        var w := WithConnected(v, false, DisconnectedMessage);
        Run(w, [Ui(ErrorRaised(AgentDisconnected)), Ui(StatusChanged(w.status))], [])
      case ReadFailure => Run(v, [], [])
  {
    assert input[i..][0] == input[i] && input[i..][1..] == input[i + 1..];
  }

  /** A blank line is skipped without a trace. */
  lemma BlankLineSkipped(v: AppView, line: string, rest: seq<ReadEvent>, parse: string -> Option<Json>)
    requires IsBlank(line)
    ensures ReadLoop(v, [Line(line)] + rest, parse) == ReadLoop(v, rest, parse)
  {
    assert ([Line(line)] + rest)[1..] == rest;
  }

  /** A line that parses is acknowledged first: its ack is the first output,
      the events of its handling (among them every status carrying the new
      state) follow it, and the rest of the run starts from the handled state.
      A line that does not parse raises `PROTOCOL_ERROR`, changes nothing, and
      reading goes on. */
  lemma LineOutcomes(v: AppView, line: string, rest: seq<ReadEvent>, parse: string -> Option<Json>)
    requires !IsBlank(line)
    ensures ParseEnvelope(Trim(line), parse).Ok? ==>
      var e := ParseEnvelope(Trim(line), parse).value;
      var h := HandleEnvelope(v, e);
      var r := ReadLoop(v, [Line(line)] + rest, parse);
      && r.out[0] == Ack(e.id)
      && r.out[1..] == Uis(h.events) + ReadLoop(h.view, rest, parse).out
      && r.view == ReadLoop(h.view, rest, parse).view
      && r.jobs == OptionSeq(h.job) + ReadLoop(h.view, rest, parse).jobs
    ensures ParseEnvelope(Trim(line), parse).Err? ==>
      ReadLoop(v, [Line(line)] + rest, parse) == Prepend([Ui(ErrorRaised(ProtocolError))], [], ReadLoop(v, rest, parse))
  {
    assert ([Line(line)] + rest)[1..] == rest;
    var step := LineStep(v, line, parse);
    assert ReadLoop(v, [Line(line)] + rest, parse) == Prepend(step.out, step.jobs, ReadLoop(step.view, rest, parse));
    if ParseEnvelope(Trim(line), parse).Ok? {
      var e := ParseEnvelope(Trim(line), parse).value;
      var h := HandleEnvelope(v, e);
      assert step == Run(h.view, [Ack(e.id)] + Uis(h.events), OptionSeq(h.job));
      PrependLeading(Ack(e.id), Uis(h.events), OptionSeq(h.job), ReadLoop(h.view, rest, parse));
    }
  }

  lemma PrependLeading(first: Output, more: seq<Output>, jobs: seq<GenerationJob>, r: Run)
    ensures var p := Prepend([first] + more, jobs, r);
      p.out[0] == first && p.out[1..] == more + r.out && p.view == r.view
  {
    assert ([first] + more) + r.out == [first] + (more + r.out);
  }

  /** The end of the stream reports `AGENT_DISCONNECTED`, marks the worker
      disconnected with state `Error` and its message, and ends the loop:
      nothing after it is read. */
  lemma EndOfStreamStops(v: AppView, rest: seq<ReadEvent>, parse: string -> Option<Json>)
    ensures var r := ReadLoop(v, [EndOfStream] + rest, parse);
      && r.view.status == Status(Error, v.status.platform, false, DisconnectedMessage)
      && r.view == v.(status := r.view.status)
      && r.jobs == []
      && r.out == [Ui(ErrorRaised(AgentDisconnected)), Ui(StatusChanged(r.view.status))]
  {
  }

  // ---------------------------------------------------------------- acknowledged ids

  /** The texts of the lines read before the stream ends or a read fails. */
  function LinesRead(input: seq<ReadEvent>): seq<string>
    decreases |input|
  {
    if input == [] || !input[0].Line? then [] else [input[0].text] + LinesRead(input[1..])
  }

  /** The id a line carries: its envelope's id when the line is not blank and
      its trimmed text parses into a valid envelope; nothing otherwise. */
  function LineId(line: string, parse: string -> Option<Json>): seq<string> {
    var r := ParseEnvelope(Trim(line), parse);
    if !IsBlank(line) && r.Ok? then [r.value.id] else []
  }

  /** The ids of the envelopes among some lines, in order. */
  function EnvelopeIds(lines: seq<string>, parse: string -> Option<Json>): seq<string>
    decreases |lines|
  {
    if lines == [] then [] else LineId(lines[0], parse) + EnvelopeIds(lines[1..], parse)
  }

  /** The ids of the acknowledgements in an output, in order. */
  function AckIds(out: seq<Output>): seq<string>
    decreases |out|
  {
    if out == [] then [] else (if out[0].Ack? then [out[0].id] else []) + AckIds(out[1..])
  }

  lemma {:induction false} AckIdsAppend(a: seq<Output>, b: seq<Output>)
    ensures AckIds(a + b) == AckIds(a) + AckIds(b)
    decreases |a|
  {
    if a != [] {
      assert (a + b)[0] == a[0] && (a + b)[1..] == a[1..] + b;
      AckIdsAppend(a[1..], b);
    } else {
      assert a + b == b;
    }
  }

  lemma {:induction false} NoAckIdsInEvents(events: seq<UiEvent>)
    ensures AckIds(Uis(events)) == []
    decreases |events|
  {
    if events != [] {
      AckIdsAppend([Ui(events[0])], Uis(events[1..]));
      NoAckIdsInEvents(events[1..]);
    }
  }

  /** A line's acknowledgements: the envelope's id when the line counts, else none. */
  lemma LineStepAckIds(v: AppView, line: string, parse: string -> Option<Json>)
    ensures AckIds(LineStep(v, line, parse).out) == LineId(line, parse)
  {
    if !IsBlank(line) {
      match ParseEnvelope(Trim(line), parse)
      case Ok(e) =>
        var h := HandleEnvelope(v, e);
        AckIdsAppend([Ack(e.id)], Uis(h.events));
        NoAckIdsInEvents(h.events);
      case Err(_) =>
    }
  }

  /** No id of a parsed envelope is blank. */
  lemma {:induction false} EnvelopeIdsNotBlank(lines: seq<string>, parse: string -> Option<Json>)
    ensures forall k :: 0 <= k < |EnvelopeIds(lines, parse)| ==> !IsBlank(EnvelopeIds(lines, parse)[k])
    decreases |lines|
  {
    if lines != [] {
      EnvelopeIdsNotBlank(lines[1..], parse);
      var ids := EnvelopeIds(lines, parse);
      var head := LineId(lines[0], parse);
      var tail := EnvelopeIds(lines[1..], parse);
      forall k | 0 <= k < |ids| ensures !IsBlank(ids[k]) {
        if k >= |head| {
          assert ids[k] == tail[k - |head|];
        }
      }
    }
  }

  /** The acknowledgements of a run, read off its output. */
  lemma {:induction false} AckIdsOfRun(v: AppView, input: seq<ReadEvent>, parse: string -> Option<Json>)
    ensures AckIds(ReadLoop(v, input, parse).out) == EnvelopeIds(LinesRead(input), parse)
    decreases |input|
  {
    if input == [] {
    } else if input[0].Line? {
      var line := input[0].text;
      var step := LineStep(v, line, parse);
      AckIdsOfRun(step.view, input[1..], parse);
      LineStepAckIds(v, line, parse);
      AckIdsAppend(step.out, ReadLoop(step.view, input[1..], parse).out);
      var lines := LinesRead(input);
      assert lines[0] == line && lines[1..] == LinesRead(input[1..]);
    } else if input[0].EndOfStream? {
      var w := WithConnected(v, false, DisconnectedMessage);
      UisPair(ErrorRaised(AgentDisconnected), StatusChanged(w.status));
      NoAckIdsInEvents([ErrorRaised(AgentDisconnected), StatusChanged(w.status)]);
    }
  }

  /** The host acknowledges exactly the envelopes that parsed, in the order
      their lines were read, up to the end of the stream or a read failure;
      no acknowledged id is blank. */
  lemma AcksAreParsedIds(v: AppView, input: seq<ReadEvent>, parse: string -> Option<Json>)
    ensures AckIds(ReadLoop(v, input, parse).out) == EnvelopeIds(LinesRead(input), parse)
    ensures forall k :: 0 <= k < |AckIds(ReadLoop(v, input, parse).out)| ==> !IsBlank(AckIds(ReadLoop(v, input, parse).out)[k])
  {
    AckIdsOfRun(v, input, parse);
    EnvelopeIdsNotBlank(LinesRead(input), parse);
  }
}
