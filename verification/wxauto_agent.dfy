/**
 * The Windows worker process: its global `AgentState` (listening flag, poll
 * interval, last message key per chat, and the table of envelopes awaiting an
 * acknowledgement), the commands it reads from the host, the periodic sweep that
 * resends unacknowledged envelopes, and the de-duplication step of a poll.
 *
 * Everything the worker writes to standard output is appended to `outbox`.
 * The pending table is a Python dict, whose iteration follows insertion order:
 * `order` records that order. The UUIDs the worker draws are the parameter
 * `uuid` applied to the number of envelopes written so far, and the clock is a
 * parameter `now` in milliseconds. The automation library's effects (reading
 * the current chat, pasting into it) are inputs: `PollInput` and `WriteOutcome`.
 */
module WxautoAgent {
  import opened Base
  import opened Text
  import opened Json
  import opened Ipc

  const AckTimeoutMs: nat := 3000
  const MaxAckRetries: nat := 3
  const DefaultPollInterval: real := 0.8
  const MinPollInterval: real := 0.2
  const ListenFailed: string := "LISTEN_FAILED"
  const WriteFailed: string := "WRITE_FAILED"
  const EmptyWriteError: string := "chat_id or text is empty"

  datatype PendingMessage = PendingMessage(envelope: Envelope, sentAt: nat, retries: nat)

  datatype WorkerView = WorkerView(
    listening: bool,
    pollInterval: real,
    lastMessageKeys: map<string, string>,
    pending: map<string, PendingMessage>,
    order: seq<string>,
    outbox: seq<Envelope>)

  function Initial(): WorkerView {
    WorkerView(false, DefaultPollInterval, map[], map[], [], [])
  }

  predicate Distinct(s: seq<string>) {
    forall i, j :: 0 <= i < j < |s| ==> s[i] != s[j]
  }

  /** The bookkeeping of the pending table: `order` lists each pending id once,
      each entry is filed under its envelope's id, and no entry has been
      resent more than `MaxAckRetries` times. */
  ghost predicate Tracked(v: WorkerView) {
    && Distinct(v.order)
    && (forall k :: k in v.order <==> k in v.pending)
    && (forall k :: k in v.pending ==> v.pending[k].envelope.id == k && v.pending[k].retries <= MaxAckRetries)
  }

  function Last(s: seq<Envelope>): Envelope
    requires s != []
  {
    s[|s| - 1]
  }

  /** How many envelopes with the given id a sequence holds. */
  function CountId(s: seq<Envelope>, id: string): nat {
    if s == [] then 0 else CountId(s[..|s| - 1], id) + (if s[|s| - 1].id == id then 1 else 0)
  }

  lemma CountIdAppend(s: seq<Envelope>, e: Envelope, id: string)
    ensures CountId(s + [e], id) == CountId(s, id) + (if e.id == id then 1 else 0)
  {
    assert (s + [e])[..|s|] == s;
  }

  // ---------------------------------------------------------------- JSON as Python sees it

  /** `dict.get(key, default)`. */
  function Field(m: map<string, Json>, key: string, default: Json): Json {
    if key in m then m[key] else default
  }

  /** Python truthiness of a decoded JSON value. */
  predicate Truthy(j: Json) {
    match j
    case JNull => false
    case JBool(b) => b
    case JInt(i) => i != 0
    case JReal(r) => r != 0.0
    case JStr(s) => s != []
    case JArr(items) => items != []
    case JObj(fields) => fields != map[]
  }

  /** `str(value)`, spelled out for strings, `None`, booleans and integers; the
      rendering of floats, lists and dicts (`None` here) is never blank and is not
      spelled out. */
  function PyStr(j: Json): Option<string> {
    match j
    case JStr(s) => Some(s)
    case JNull => Some("None")
    case JBool(b) => Some(if b then "True" else "False")
    case JInt(i) => Some(IntToString(i))
    case _ => None
  }

  /** `not str(value).strip()`. */
  predicate PyBlank(o: Option<string>) {
    o.Some? && Strip(o.value) == []
  }

  function RealMax(a: real, b: real): real {
    if a >= b then a else b
  }

  /** The interval kept after `listen.start`/`listen.resume`: a number of at least
      200 milliseconds replaces it (as seconds, never below 0.2); anything else,
      booleans included, leaves it as it was. */
  function NextInterval(current: real, interval: Json): (r: real)
    ensures (interval.JInt? && interval.i >= 200) ==> r == interval.i as real / 1000.0
    ensures (interval.JReal? && interval.r >= 200.0) ==> r == interval.r / 1000.0
    ensures !(interval.JInt? && interval.i >= 200) && !(interval.JReal? && interval.r >= 200.0) ==> r == current
    ensures r != current ==> r >= MinPollInterval
  {
    if interval.JInt? && interval.i >= 200 then RealMax(interval.i as real / 1000.0, MinPollInterval)
    else if interval.JReal? && interval.r >= 200.0 then RealMax(interval.r / 1000.0, MinPollInterval)
    else current
  }

  // ---------------------------------------------------------------- sending

  /** `envelope`: a supplied non-empty id is kept, otherwise a fresh UUID is used. */
  function MakeEnvelope(kind: string, payload: Json, msgId: Option<string>, freshId: string, timestamp: nat): (e: Envelope)
    ensures e.version == ProtocolVersion && e.kind == kind && e.payload == payload && e.timestamp == timestamp
    ensures msgId.Some? && msgId.value != "" ==> e.id == msgId.value
    ensures msgId.None? || msgId.value == "" ==> e.id == freshId
  {
    Envelope(ProtocolVersion, kind, if msgId.Some? && msgId.value != "" then msgId.value else freshId, timestamp, payload)
  }

  /** The next envelope the worker writes, stamped with the clock in seconds. */
  function NextEnvelope(v: WorkerView, kind: string, payload: Json, now: nat, uuid: nat -> string): Envelope {
    MakeEnvelope(kind, payload, None, uuid(|v.outbox|), now / 1000)
  }

  /** `send_with_ack`: write the envelope and file it as pending, unretried. */
  function Tracking(v: WorkerView, kind: string, payload: Json, now: nat, uuid: nat -> string): WorkerView {
    var e := NextEnvelope(v, kind, payload, now, uuid);
    v.(outbox := v.outbox + [e],
       pending := v.pending[e.id := PendingMessage(e, now, 0)],
       order := if e.id in v.pending then v.order else v.order + [e.id])
  }

  function AckPayload(ackId: Json, ok: bool, error: string): Json {
    JObj(map["ack_id" := ackId, "ok" := JBool(ok), "error" := JStr(error)])
  }

  /** `send_ack`: written only, never tracked. */
  function Acking(v: WorkerView, ackId: Json, ok: bool, error: string, now: nat, uuid: nat -> string): WorkerView {
    v.(outbox := v.outbox + [NextEnvelope(v, "event.ack", AckPayload(ackId, ok, error), now, uuid)])
  }

  function ErrorPayloadJson(code: string, message: string, recoverable: bool): Json {
    JObj(map["code" := JStr(code), "message" := JStr(message), "recoverable" := JBool(recoverable)])
  }

  function StatusPayloadJson(state: string, detail: string): Json {
    JObj(map["state" := JStr(state), "detail" := JStr(detail)])
  }

  function ResultPayloadJson(ok: bool, error: string): Json {
    JObj(map["ok" := JBool(ok), "error" := JStr(error)])
  }

  /** The worker's `agent.error`, `agent.status` and `input.result` payloads are
      read back by the host as the same values. */
  lemma PayloadsDecode(code: string, message: string, recoverable: bool, state: string, detail: string, ok: bool, error: string)
    ensures DecodeAgentError(ErrorPayloadJson(code, message, recoverable)) == Some(AgentErrorPayload(code, message, recoverable))
    ensures DecodeAgentStatus(StatusPayloadJson(state, detail)) == Some(AgentStatusPayload(state, detail))
    ensures DecodeInputResult(ResultPayloadJson(ok, error)) == Some(InputResultPayload(ok, error))
  {
    assert Get(ErrorPayloadJson(code, message, recoverable), "code") == JStr(code);
    assert Get(ErrorPayloadJson(code, message, recoverable), "message") == JStr(message);
    assert Get(ErrorPayloadJson(code, message, recoverable), "recoverable") == JBool(recoverable);
    assert Get(StatusPayloadJson(state, detail), "state") == JStr(state);
    assert Has(StatusPayloadJson(state, detail), "detail") && Get(StatusPayloadJson(state, detail), "detail") == JStr(detail);
    assert Get(ResultPayloadJson(ok, error), "ok") == JBool(ok);
    assert Has(ResultPayloadJson(ok, error), "error") && Get(ResultPayloadJson(ok, error), "error") == JStr(error);
  }

  /** `send_with_ack` writes exactly one envelope, files it under its own id with
      no retries and the current time, and keeps every other entry. */
  lemma TrackingRecords(v: WorkerView, kind: string, payload: Json, now: nat, uuid: nat -> string)
    ensures var w := Tracking(v, kind, payload, now, uuid);
      && |w.outbox| == |v.outbox| + 1 && w.outbox[..|v.outbox|] == v.outbox
      && var e := Last(w.outbox);
      && e.kind == kind && e.payload == payload && e.version == ProtocolVersion && e.id == uuid(|v.outbox|)
      && e.id in w.pending && w.pending[e.id] == PendingMessage(e, now, 0)
      && (forall k :: k in v.pending && k != e.id ==> k in w.pending && w.pending[k] == v.pending[k])
      && w.pending.Keys == v.pending.Keys + {e.id}
    ensures Tracked(v) ==> Tracked(Tracking(v, kind, payload, now, uuid))
  {
    var w := Tracking(v, kind, payload, now, uuid);
    assert w.outbox[..|v.outbox|] == v.outbox;
  }

  // ---------------------------------------------------------------- removing entries

  function Remove(s: seq<string>, k: string): (r: seq<string>)
    ensures forall x :: x in r <==> x in s && x != k
  {
    if s == [] then [] else (if s[0] == k then [] else [s[0]]) + Remove(s[1..], k)
  }

  lemma {:induction false} RemoveDistinct(s: seq<string>, k: string)
    requires Distinct(s)
    ensures Distinct(Remove(s, k))
  {
    if s != [] {
      assert Distinct(s[1..]) by {
        forall i, j | 0 <= i < j < |s[1..]| ensures s[1..][i] != s[1..][j] {
          assert s[1..][i] == s[i + 1] && s[1..][j] == s[j + 1];
        }
      }
      RemoveDistinct(s[1..], k);
      var rest := Remove(s[1..], k);
      assert s[0] !in s[1..] by {
        forall i | 0 <= i < |s[1..]| ensures s[1..][i] != s[0] {
          assert s[1..][i] == s[i + 1];
        }
      }
      assert s[0] !in rest;
      var r := (if s[0] == k then [] else [s[0]]) + rest;
      forall i, j | 0 <= i < j < |r| ensures r[i] != r[j] {
        if s[0] != k && i == 0 {
          assert r[j] == rest[j - 1];
        } else if s[0] != k {
          assert r[i] == rest[i - 1] && r[j] == rest[j - 1];
        }
      }
    }
  }

  /** The entry for `k` is forgotten. */
  function Drop(v: WorkerView, k: string): WorkerView {
    v.(pending := v.pending - {k}, order := Remove(v.order, k))
  }

  lemma DropTracked(v: WorkerView, k: string)
    requires Tracked(v)
    ensures Tracked(Drop(v, k))
  {
    RemoveDistinct(v.order, k);
  }

  // ---------------------------------------------------------------- process_pending

  /** One iteration of `process_pending` on the entry `k`. */
  function SweepOne(v: WorkerView, k: string, now: nat): WorkerView {
    if k !in v.pending then v
    else
      var p := v.pending[k];
      if now - p.sentAt < AckTimeoutMs then v
      else if p.retries >= MaxAckRetries then Drop(v, k)
      else v.(outbox := v.outbox + [p.envelope], pending := v.pending[k := p.(sentAt := now, retries := p.retries + 1)])
  }

  /** `process_pending` over a snapshot of the pending ids. */
  function Sweep(v: WorkerView, keys: seq<string>, now: nat): WorkerView
    decreases |keys|
  {
    if keys == [] then v else Sweep(SweepOne(v, keys[0], now), keys[1..], now)
  }

  /** A whole `process_pending`: the snapshot is every pending id in insertion order. */
  function Swept(v: WorkerView, now: nat): WorkerView {
    Sweep(v, v.order, now)
  }

  /** What one sweep does to an entry, stated on its own: it stays while younger
      than the timeout, is dropped once its retries are used up, and is otherwise
      resent with the clock reset and one more retry. */
  function Outcome(p: PendingMessage, now: nat): Option<PendingMessage> {
    if now - p.sentAt < AckTimeoutMs then Some(p)
    else if p.retries >= MaxAckRetries then None
    else Some(p.(sentAt := now, retries := p.retries + 1))
  }

  predicate Resent(p: PendingMessage, now: nat) {
    now - p.sentAt >= AckTimeoutMs && p.retries < MaxAckRetries
  }

  /** The envelopes a sweep over `keys` writes, in order. */
  function Resends(pending: map<string, PendingMessage>, keys: seq<string>, now: nat): seq<Envelope>
    decreases |keys|
  {
    if keys == [] then []
    else (if keys[0] in pending && Resent(pending[keys[0]], now) then [pending[keys[0]].envelope] else [])
         + Resends(pending, keys[1..], now)
  }

  lemma {:induction false} ResendsAgree(p: map<string, PendingMessage>, q: map<string, PendingMessage>, keys: seq<string>, now: nat)
    requires forall k :: k in keys ==> (k in p <==> k in q) && (k in p ==> p[k] == q[k])
    ensures Resends(p, keys, now) == Resends(q, keys, now)
    decreases |keys|
  {
    if keys != [] {
      assert keys[0] in keys;
      forall k | k in keys[1..] ensures (k in p <==> k in q) && (k in p ==> p[k] == q[k]) {
        assert k in keys;
      }
      ResendsAgree(p, q, keys[1..], now);
    }
  }

  lemma SweepOneTracked(v: WorkerView, k: string, now: nat)
    requires Tracked(v)
    ensures Tracked(SweepOne(v, k, now))
  {
    if k in v.pending && now - v.pending[k].sentAt >= AckTimeoutMs && v.pending[k].retries >= MaxAckRetries {
      DropTracked(v, k);
    }
  }

  lemma {:induction false} SweepTracked(v: WorkerView, keys: seq<string>, now: nat)
    requires Tracked(v)
    ensures Tracked(Sweep(v, keys, now))
    decreases |keys|
  {
    if keys != [] {
      SweepOneTracked(v, keys[0], now);
      SweepTracked(SweepOne(v, keys[0], now), keys[1..], now);
    }
  }

  /** One sweep step on `k` handles that entry as `Outcome` says, writes its
      envelope when it is resent, and touches nothing else. */
  lemma SweepOneEffect(v: WorkerView, k: string, now: nat)
    ensures var u := SweepOne(v, k, now);
      && u.listening == v.listening && u.pollInterval == v.pollInterval && u.lastMessageKeys == v.lastMessageKeys
      && u.outbox == v.outbox + (if k in v.pending && Resent(v.pending[k], now) then [v.pending[k].envelope] else [])
      && (forall j :: j != k ==> (j in u.pending <==> j in v.pending))
      && (forall j :: j != k && j in v.pending ==> u.pending[j] == v.pending[j])
      && (k in u.pending <==> k in v.pending && Outcome(v.pending[k], now).Some?)
      && (k in u.pending ==> u.pending[k] == Outcome(v.pending[k], now).value)
  {
  }

  lemma DistinctTail(keys: seq<string>)
    requires Distinct(keys) && keys != []
    ensures Distinct(keys[1..]) && keys[0] !in keys[1..]
  {
    var rest := keys[1..];
    forall i, j | 0 <= i < j < |rest| ensures rest[i] != rest[j] {
      assert rest[i] == keys[i + 1] && rest[j] == keys[j + 1];
    }
    forall i | 0 <= i < |rest| ensures rest[i] != keys[0] {
      assert rest[i] == keys[i + 1];
    }
  }

  /** A sweep over distinct ids handles each of them exactly as `Outcome` says,
      leaves every other entry and the rest of the state alone, and writes the
      resent envelopes in the order of the ids. */
  lemma {:induction false} SweepEffect(v: WorkerView, keys: seq<string>, now: nat)
    requires Distinct(keys)
    ensures var w := Sweep(v, keys, now);
      && w.listening == v.listening && w.pollInterval == v.pollInterval && w.lastMessageKeys == v.lastMessageKeys
      && w.outbox == v.outbox + Resends(v.pending, keys, now)
      && (forall k :: k !in keys ==> (k in w.pending <==> k in v.pending))
      && (forall k :: k !in keys && k in v.pending ==> w.pending[k] == v.pending[k])
      && (forall k :: k in keys ==> (k in w.pending <==> k in v.pending && Outcome(v.pending[k], now).Some?))
      && (forall k :: k in keys && k in w.pending ==> w.pending[k] == Outcome(v.pending[k], now).value)
    decreases |keys|
  {
    if keys != [] {
      var k0 := keys[0];
      var rest := keys[1..];
      var u := SweepOne(v, k0, now);
      DistinctTail(keys);
      SweepOneEffect(v, k0, now);
      SweepEffect(u, rest, now);
      var w := Sweep(u, rest, now);
      assert w == Sweep(v, keys, now);
      ResendsAgree(u.pending, v.pending, rest, now);
      var first := if k0 in v.pending && Resent(v.pending[k0], now) then [v.pending[k0].envelope] else [];
      assert Resends(v.pending, keys, now) == first + Resends(v.pending, rest, now);
      SeqAssoc3(v.outbox, first, Resends(v.pending, rest, now));
      forall k | k in keys
        ensures (k in w.pending <==> k in v.pending && Outcome(v.pending[k], now).Some?)
        ensures k in w.pending ==> w.pending[k] == Outcome(v.pending[k], now).value
      {
        if k != k0 {
          assert k in rest;
        }
      }
    }
  }

  /** `process_pending` as a whole, on a well-kept table: entries younger than
      3 s are untouched, due entries with 3 retries are dropped without being
      written, and every other due entry is written again, unchanged, with its
      clock reset and one more retry; nothing else changes, and the table stays
      well kept. */
  lemma SweptSpec(v: WorkerView, now: nat)
    requires Tracked(v)
    ensures var w := Swept(v, now);
      && Tracked(w)
      && w.listening == v.listening && w.pollInterval == v.pollInterval && w.lastMessageKeys == v.lastMessageKeys
      && w.outbox == v.outbox + Resends(v.pending, v.order, now)
      && w.pending.Keys <= v.pending.Keys
      && (forall k :: k in v.pending && now - v.pending[k].sentAt < AckTimeoutMs ==> k in w.pending && w.pending[k] == v.pending[k])
      && (forall k :: k in v.pending && now - v.pending[k].sentAt >= AckTimeoutMs && v.pending[k].retries >= MaxAckRetries ==> k !in w.pending)
      && (forall k :: k in v.pending && Resent(v.pending[k], now) ==>
            k in w.pending && w.pending[k] == v.pending[k].(sentAt := now, retries := v.pending[k].retries + 1))
  {
    SweepEffect(v, v.order, now);
    SweepTracked(v, v.order, now);
  }

  /** How many more times the entry for `k` can still be written by sweeps. */
  function Budget(v: WorkerView, k: string): int {
    if k in v.pending then MaxAckRetries - v.pending[k].retries else 0
  }

  lemma SweepOneBudget(v: WorkerView, j: string, now: nat, k: string)
    requires Tracked(v)
    ensures var w := SweepOne(v, j, now); CountId(w.outbox, k) + Budget(w, k) <= CountId(v.outbox, k) + Budget(v, k)
  {
    if j in v.pending {
      var p := v.pending[j];
      if now - p.sentAt >= AckTimeoutMs && p.retries < MaxAckRetries {
        CountIdAppend(v.outbox, p.envelope, k);
      }
    }
  }

  lemma {:induction false} SweepBudget(v: WorkerView, keys: seq<string>, now: nat, k: string)
    requires Tracked(v)
    ensures var w := Sweep(v, keys, now); CountId(w.outbox, k) + Budget(w, k) <= CountId(v.outbox, k) + Budget(v, k)
    decreases |keys|
  {
    if keys != [] {
      SweepOneBudget(v, keys[0], now, k);
      SweepOneTracked(v, keys[0], now);
      SweepBudget(SweepOne(v, keys[0], now), keys[1..], now, k);
    }
  }

  /** Successive sweeps at the given times. */
  function Sweeps(v: WorkerView, times: seq<nat>): WorkerView
    decreases |times|
  {
    if times == [] then v else Sweeps(Swept(v, times[0]), times[1..])
  }

  lemma {:induction false} SweepsBudget(v: WorkerView, times: seq<nat>, k: string)
    requires Tracked(v)
    ensures var w := Sweeps(v, times); CountId(w.outbox, k) + Budget(w, k) <= CountId(v.outbox, k) + Budget(v, k)
    ensures Tracked(Sweeps(v, times))
    decreases |times|
  {
    if times != [] {
      SweepBudget(v, v.order, times[0], k);
      SweepTracked(v, v.order, times[0]);
      SweepsBudget(Swept(v, times[0]), times[1..], k);
    }
  }

  /** An envelope sent with `send_with_ack` is written again by later sweeps at
      most three times, however many sweeps run and whenever they run. */
  lemma ResentAtMostThreeTimes(v: WorkerView, kind: string, payload: Json, now: nat, uuid: nat -> string, times: seq<nat>)
    requires Tracked(v)
    ensures var w := Tracking(v, kind, payload, now, uuid);
      var id := uuid(|v.outbox|);
      CountId(Sweeps(w, times).outbox, id) <= CountId(w.outbox, id) + MaxAckRetries
  {
    TrackingRecords(v, kind, payload, now, uuid);
    var w := Tracking(v, kind, payload, now, uuid);
    SweepsBudget(w, times, uuid(|v.outbox|));
    assert Budget(w, uuid(|v.outbox|)) == MaxAckRetries;
    assert Budget(Sweeps(w, times), uuid(|v.outbox|)) >= 0;
  }

  // ---------------------------------------------------------------- emitted messages

  function ErrorEmitted(v: WorkerView, code: string, message: string, recoverable: bool, now: nat, uuid: nat -> string): WorkerView {
    Tracking(v, "agent.error", ErrorPayloadJson(code, message, recoverable), now, uuid)
  }

  function StatusEmitted(v: WorkerView, state: string, detail: string, now: nat, uuid: nat -> string): WorkerView {
    Tracking(v, "agent.status", StatusPayloadJson(state, detail), now, uuid)
  }

  function ResultSent(v: WorkerView, ok: bool, error: string, now: nat, uuid: nat -> string): WorkerView {
    Tracking(v, "input.result", ResultPayloadJson(ok, error), now, uuid)
  }

  // ---------------------------------------------------------------- handle_command

  /** What the automation library did when asked to paste: WeChat could not be
      reached, the clipboard modules could not be loaded, the paste went through,
      or it raised. */
  datatype WriteOutcome = NoWechat(error: string) | NoClipboard(error: string) | Pasted | PasteFailed(error: string)

  /** `write_input`, past the reach of the automation library. */
  function WriteInputDone(v: WorkerView, write: WriteOutcome, now: nat, uuid: nat -> string): WorkerView {
    match write
    case NoWechat(e) => ResultSent(ErrorEmitted(v, WriteFailed, e, true, now, uuid), false, e, now, uuid)
    case NoClipboard(e) => ResultSent(v, false, e, now, uuid)
    case Pasted => ResultSent(v, true, "", now, uuid)
    case PasteFailed(e) => ResultSent(v, false, e, now, uuid)
  }

  /** The state after a command, and whether the handler returned normally
      (`false`: it raised, which ends the worker's main loop). */
  datatype Handled = Handled(view: WorkerView, completed: bool)

  /** The part of `handle_command` after the acknowledgement. */
  function Dispatch(v: WorkerView, kind: Json, payload: Json, now: nat, uuid: nat -> string, write: WriteOutcome): Handled {
    if IsListenKind(kind) then Listen(v, kind, payload, now, uuid)
    else if kind == JStr("input.write") then InputWrite(v, payload, now, uuid, write)
    else Handled(v, true)
  }

  predicate IsListenKind(kind: Json) {
    kind == JStr("listen.start") || kind == JStr("listen.resume") || kind == JStr("listen.pause") || kind == JStr("listen.stop")
  }

  /** The four `listen.*` commands. */
  function Listen(v: WorkerView, kind: Json, payload: Json, now: nat, uuid: nat -> string): Handled {
    if kind == JStr("listen.start") || kind == JStr("listen.resume") then
      if !payload.JObj? then Handled(v, false)
      else
        var interval := NextInterval(v.pollInterval, Field(payload.fields, "poll_interval_ms", JNull));
        Handled(StatusEmitted(v.(pollInterval := interval, listening := true), "listening", "", now, uuid), true)
    else if kind == JStr("listen.pause") then
      Handled(StatusEmitted(v.(listening := false), "paused", "", now, uuid), true)
    else
      Handled(StatusEmitted(v.(listening := false), "idle", "", now, uuid), true)
  }

  /** `input.write`: a blank chat id or text is refused without a paste. */
  function InputWrite(v: WorkerView, payload: Json, now: nat, uuid: nat -> string, write: WriteOutcome): Handled {
    if !payload.JObj? then Handled(v, false)
    else
      var chatId := PyStr(Field(payload.fields, "chat_id", JStr("")));
      var text := PyStr(Field(payload.fields, "text", JStr("")));
      if PyBlank(chatId) || PyBlank(text) then Handled(ResultSent(v, false, EmptyWriteError, now, uuid), true)
      else Handled(WriteInputDone(v, write, now, uuid), true)
  }

  /** `handle_command` on one decoded line. A value that is not an object, or a
      `payload` that is not an object where one is read, raises. */
  function Command(v: WorkerView, message: Json, now: nat, uuid: nat -> string, write: WriteOutcome): Handled {
    if !message.JObj? then Handled(v, false)
    else
      var kind := Field(message.fields, "type", JStr(""));
      var id := Field(message.fields, "id", JStr(""));
      var payload := Field(message.fields, "payload", JObj(map[]));
      if kind == JStr("event.ack") then
        if !payload.JObj? then Handled(v, false)
        else
          var ackId := Field(payload.fields, "ack_id", JNull);
          if ackId.JStr? && ackId.s in v.pending then Handled(Drop(v, ackId.s), true) else Handled(v, true)
      else
        var acked := if Truthy(id) then Acking(v, id, true, "", now, uuid) else v;
        Dispatch(acked, kind, payload, now, uuid, write)
  }

  /** An `event.ack` for a pending id forgets that entry; for any other id it
      changes nothing; in no case is anything written in reply. */
  lemma AckCommand(v: WorkerView, ackId: string, extra: map<string, Json>, now: nat, uuid: nat -> string, write: WriteOutcome)
    requires Tracked(v)
    ensures var message := JObj(extra["type" := JStr("event.ack")]["payload" := JObj(map["ack_id" := JStr(ackId)])]);
      var h := Command(v, message, now, uuid, write);
      && h.completed && h.view.outbox == v.outbox
      && h.view.pending == v.pending - {ackId}
      && (ackId !in v.pending ==> h.view == v)
      && Tracked(h.view)
  {
    var message := JObj(extra["type" := JStr("event.ack")]["payload" := JObj(map["ack_id" := JStr(ackId)])]);
    AckFields(extra, ackId);
    AckHandled(v, message, ackId, now, uuid, write);
    if ackId in v.pending {
      DropTracked(v, ackId);
    } else {
      assert v.pending - {ackId} == v.pending;
    }
  }

  lemma AckFields(extra: map<string, Json>, ackId: string)
    ensures var fields := extra["type" := JStr("event.ack")]["payload" := JObj(map["ack_id" := JStr(ackId)])];
      && Field(fields, "type", JStr("")) == JStr("event.ack")
      && Field(fields, "payload", JObj(map[])) == JObj(map["ack_id" := JStr(ackId)])
  {
  }

  /** An `event.ack` forgets the acknowledged id when it is pending. */
  lemma AckHandled(v: WorkerView, message: Json, ackId: string, now: nat, uuid: nat -> string, write: WriteOutcome)
    requires message.JObj? && Field(message.fields, "type", JStr("")) == JStr("event.ack")
    requires Field(message.fields, "payload", JObj(map[])) == JObj(map["ack_id" := JStr(ackId)])
    ensures Command(v, message, now, uuid, write) == if ackId in v.pending then Handled(Drop(v, ackId), true) else Handled(v, true)
  {
    assert Field(map["ack_id" := JStr(ackId)], "ack_id", JNull) == JStr(ackId);
  }

  /** Every other command that carries a truthy id is acknowledged, with `ok`
      true and no error, before anything else is written; a string id reads back
      on the host as that id. */
  lemma NonAckCommandAckedFirst(v: WorkerView, message: Json, now: nat, uuid: nat -> string, write: WriteOutcome)
    requires message.JObj? && Field(message.fields, "type", JStr("")) != JStr("event.ack")
    requires Truthy(Field(message.fields, "id", JStr("")))
    ensures var h := Command(v, message, now, uuid, write);
      var id := Field(message.fields, "id", JStr(""));
      && |h.view.outbox| > |v.outbox| && h.view.outbox[..|v.outbox|] == v.outbox
      && h.view.outbox[|v.outbox|] == MakeEnvelope("event.ack", AckPayload(id, true, ""), None, uuid(|v.outbox|), now / 1000)
      && (id.JStr? ==> DecodeEventAck(h.view.outbox[|v.outbox|].payload) == Some(EventAckPayload(id.s, true, "")))
  {
    var id := Field(message.fields, "id", JStr(""));
    var acked := Acking(v, id, true, "", now, uuid);
    var kind := Field(message.fields, "type", JStr(""));
    var payload := Field(message.fields, "payload", JObj(map[]));
    var h := Dispatch(acked, kind, payload, now, uuid, write);
    assert h == Command(v, message, now, uuid, write);
    DispatchAppends(acked, kind, payload, now, uuid, write);
    assert h.view.outbox[..|acked.outbox|] == acked.outbox;
    assert h.view.outbox[|v.outbox|] == acked.outbox[|v.outbox|];
    assert h.view.outbox[..|v.outbox|] == acked.outbox[..|v.outbox|];
    var ap := AckPayload(id, true, "");
    assert Get(ap, "ack_id") == id && Get(ap, "ok") == JBool(true);
    assert Has(ap, "error") && Get(ap, "error") == JStr("");
  }

  /** A command only ever appends to what the worker has written. */
  lemma DispatchAppends(v: WorkerView, kind: Json, payload: Json, now: nat, uuid: nat -> string, write: WriteOutcome)
    ensures var h := Dispatch(v, kind, payload, now, uuid, write);
      |h.view.outbox| >= |v.outbox| && h.view.outbox[..|v.outbox|] == v.outbox
  {
    if IsListenKind(kind) {
      ListenExtends(v, kind, payload, now, uuid);
    } else if kind == JStr("input.write") {
      InputWriteExtends(v, payload, now, uuid, write);
    }
  }

  lemma ListenExtends(v: WorkerView, kind: Json, payload: Json, now: nat, uuid: nat -> string)
    ensures Extends(v.outbox, Listen(v, kind, payload, now, uuid).view.outbox)
  {
    if kind == JStr("listen.start") || kind == JStr("listen.resume") {
      if payload.JObj? {
        var interval := NextInterval(v.pollInterval, Field(payload.fields, "poll_interval_ms", JNull));
        TrackingExtends(v.(pollInterval := interval, listening := true), "agent.status", StatusPayloadJson("listening", ""), now, uuid);
      }
    } else if kind == JStr("listen.pause") {
      TrackingExtends(v.(listening := false), "agent.status", StatusPayloadJson("paused", ""), now, uuid);
    } else {
      TrackingExtends(v.(listening := false), "agent.status", StatusPayloadJson("idle", ""), now, uuid);
    }
  }

  lemma InputWriteExtends(v: WorkerView, payload: Json, now: nat, uuid: nat -> string, write: WriteOutcome)
    ensures Extends(v.outbox, InputWrite(v, payload, now, uuid, write).view.outbox)
  {
    if payload.JObj? {
      WriteInputExtends(v, write, now, uuid);
      TrackingExtends(v, "input.result", ResultPayloadJson(false, EmptyWriteError), now, uuid);
    }
  }

  /** A prefix of the outbox, as sending leaves it. */
  predicate Extends(a: seq<Envelope>, b: seq<Envelope>) {
    |b| >= |a| && b[..|a|] == a
  }

  lemma TrackingExtends(v: WorkerView, kind: string, payload: Json, now: nat, uuid: nat -> string)
    ensures Extends(v.outbox, Tracking(v, kind, payload, now, uuid).outbox)
  {
    TrackingRecords(v, kind, payload, now, uuid);
  }

  lemma WriteInputExtends(v: WorkerView, write: WriteOutcome, now: nat, uuid: nat -> string)
    ensures Extends(v.outbox, WriteInputDone(v, write, now, uuid).outbox)
  {
    match write
    case NoWechat(e) =>
      var u := ErrorEmitted(v, WriteFailed, e, true, now, uuid);
      TrackingExtends(v, "agent.error", ErrorPayloadJson(WriteFailed, e, true), now, uuid);
      TrackingExtends(u, "input.result", ResultPayloadJson(false, e), now, uuid);
      var w := ResultSent(u, false, e, now, uuid);
      assert w.outbox[..|v.outbox|] == w.outbox[..|u.outbox|][..|v.outbox|];
    case NoClipboard(e) =>
      TrackingExtends(v, "input.result", ResultPayloadJson(false, e), now, uuid);
    case Pasted =>
      TrackingExtends(v, "input.result", ResultPayloadJson(true, ""), now, uuid);
    case PasteFailed(e) =>
      TrackingExtends(v, "input.result", ResultPayloadJson(false, e), now, uuid);
  }

  /** `listen.start` and `listen.resume` turn listening on, keep the interval
      unless a number of at least 200 ms is given, and report `listening`;
      `listen.pause` and `listen.stop` turn it off and report `paused` and `idle`.
      Each report is pending an acknowledgement and reads back on the host as an
      `agent.status` with that state and no detail. */
  lemma ListenCommands(v: WorkerView, kind: string, payload: map<string, Json>, now: nat, uuid: nat -> string, write: WriteOutcome)
    requires kind in {"listen.start", "listen.resume", "listen.pause", "listen.stop"}
    ensures var h := Dispatch(v, JStr(kind), JObj(payload), now, uuid, write);
      var reported := if kind == "listen.pause" then "paused" else if kind == "listen.stop" then "idle" else "listening";
      && h.completed
      && h.view.listening == (kind == "listen.start" || kind == "listen.resume")
      && (kind in {"listen.pause", "listen.stop"} ==> h.view.pollInterval == v.pollInterval)
      && (kind in {"listen.start", "listen.resume"} ==>
            h.view.pollInterval == NextInterval(v.pollInterval, Field(payload, "poll_interval_ms", JNull)))
      && |h.view.outbox| == |v.outbox| + 1
      && var e := Last(h.view.outbox);
      && e.kind == "agent.status" && e.id in h.view.pending
      && DecodeAgentStatus(e.payload) == Some(AgentStatusPayload(reported, ""))
  {
    var p := JObj(payload);
    assert IsListenKind(JStr(kind));
    assert Dispatch(v, JStr(kind), p, now, uuid, write) == Listen(v, JStr(kind), p, now, uuid);
    if kind == "listen.start" || kind == "listen.resume" {
      var interval := NextInterval(v.pollInterval, Field(payload, "poll_interval_ms", JNull));
      StatusReported(v.(pollInterval := interval, listening := true), "listening", now, uuid);
    } else if kind == "listen.pause" {
      StatusReported(v.(listening := false), "paused", now, uuid);
    } else {
      StatusReported(v.(listening := false), "idle", now, uuid);
    }
  }

  /** A status report leaves the listening flag and the interval alone and
      files one `agent.status` envelope, pending, that decodes to the state. */
  lemma StatusReported(w: WorkerView, state: string, now: nat, uuid: nat -> string)
    ensures var x := StatusEmitted(w, state, "", now, uuid);
      && x.listening == w.listening && x.pollInterval == w.pollInterval
      && |x.outbox| == |w.outbox| + 1
      && Last(x.outbox).kind == "agent.status" && Last(x.outbox).id in x.pending
      && DecodeAgentStatus(Last(x.outbox).payload) == Some(AgentStatusPayload(state, ""))
  {
    TrackingRecords(w, "agent.status", StatusPayloadJson(state, ""), now, uuid);
    PayloadsDecode("", "", false, state, "", false, "");
  }

  /** `input.write` whose chat id or text strips to nothing answers with a pending
      `input.result` that is not ok, whatever the automation library would have
      done: no write is attempted. */
  lemma BlankInputRejected(v: WorkerView, payload: map<string, Json>, now: nat, uuid: nat -> string, write: WriteOutcome, other: WriteOutcome)
    requires PyBlank(PyStr(Field(payload, "chat_id", JStr("")))) || PyBlank(PyStr(Field(payload, "text", JStr(""))))
    ensures var h := Dispatch(v, JStr("input.write"), JObj(payload), now, uuid, write);
      && h == Dispatch(v, JStr("input.write"), JObj(payload), now, uuid, other)
      && h.completed && |h.view.outbox| == |v.outbox| + 1
      && Last(h.view.outbox).kind == "input.result"
      && DecodeInputResult(Last(h.view.outbox).payload) == Some(InputResultPayload(false, EmptyWriteError))
  {
    PayloadsDecode("", "", false, "", "", false, EmptyWriteError);
  }

  /** A missing chat id counts as blank, but an explicit `null` does not: Python
      renders it as "None", so such a command goes on to the paste. */
  lemma NullChatIdIsNotBlank()
    ensures PyBlank(PyStr(Field(map[], "chat_id", JStr(""))))
    ensures !PyBlank(PyStr(JNull))
  {
    assert Strip("None") != [] by {
      assert !IsSpace(Python, 'N') && !IsSpace(Python, 'e');
      TrimFixesUntrimmed(Python, "None");
    }
  }

  // ---------------------------------------------------------------- poll_messages

  /** What one poll of the automation library found: it could not be started,
      fetching raised, there were no messages, or the latest message of the
      current chat (its text as `extract_message_text` returns it, its id if any, and
      its sender, empty when unknown). */
  datatype PollInput =
    | InitFailed(error: string)
    | FetchFailed(error: string)
    | NoMessages
    | Latest(chatTitle: string, text: string, msgId: Option<string>, sender: string)

  /** The de-duplication key of a polled message: its id, or `text:seconds`. */
  function PollKey(text: string, msgId: Option<string>, timestamp: nat): string {
    if msgId.Some? && msgId.value != "" then msgId.value else text + ":" + NatToString(timestamp)
  }

  /** `poll_messages`. */
  function Polled(v: WorkerView, input: PollInput, now: nat, uuid: nat -> string): WorkerView {
    match input
    case InitFailed(e) =>
      StatusEmitted(ErrorEmitted(v, ListenFailed, e, true, now, uuid).(listening := false), "error", "listen initialization failed", now, uuid)
    case FetchFailed(e) => ErrorEmitted(v, ListenFailed, "fetch messages failed: " + e, true, now, uuid)
    case NoMessages => v
    case Latest(title, text, msgId, sender) =>
      if text == "" then v
      else
        var key := PollKey(text, msgId, now / 1000);
        if title in v.lastMessageKeys && v.lastMessageKeys[title] == key then v
        else
          var payload := MessageNewPayload(title, title, false, if sender == "" then title else sender, text, now / 1000, msgId);
          Tracking(v.(lastMessageKeys := v.lastMessageKeys[title := key]), "message.new", MessageNewJson(payload), now, uuid)
  }

  /** A polled message whose key equals the chat's last key writes nothing; any
      other non-empty one stores its key and writes exactly one pending
      `message.new`, which the host reads back with the chat title as chat id,
      the sender (the title when unknown) and the text. */
  lemma PollDedup(v: WorkerView, title: string, text: string, msgId: Option<string>, sender: string, now: nat, uuid: nat -> string)
    requires text != ""
    requires now / 1000 < U64Limit
    ensures var key := PollKey(text, msgId, now / 1000);
      var w := Polled(v, Latest(title, text, msgId, sender), now, uuid);
      && (title in v.lastMessageKeys && v.lastMessageKeys[title] == key ==> w == v)
      && (!(title in v.lastMessageKeys && v.lastMessageKeys[title] == key) ==>
            && w.lastMessageKeys == v.lastMessageKeys[title := key]
            && |w.outbox| == |v.outbox| + 1 && w.outbox[..|v.outbox|] == v.outbox
            && Last(w.outbox).kind == "message.new" && Last(w.outbox).id in w.pending
            && DecodeMessageNew(Last(w.outbox).payload)
               == Some(MessageNewPayload(title, title, false, if sender == "" then title else sender, text, now / 1000, msgId)))
  {
    var key := PollKey(text, msgId, now / 1000);
    if !(title in v.lastMessageKeys && v.lastMessageKeys[title] == key) {
      var payload := MessageNewPayload(title, title, false, if sender == "" then title else sender, text, now / 1000, msgId);
      MessageNewRoundTrip(payload);
      var keyed := v.(lastMessageKeys := v.lastMessageKeys[title := key]);
      assert Polled(v, Latest(title, text, msgId, sender), now, uuid) == Tracking(keyed, "message.new", MessageNewJson(payload), now, uuid);
      TrackingRecords(keyed, "message.new", MessageNewJson(payload), now, uuid);
    }
  }

  /** The same message polled twice within one second is written once. */
  lemma PollTwiceIsOnce(v: WorkerView, title: string, text: string, msgId: Option<string>, sender: string, now: nat, uuid: nat -> string)
    ensures var input := Latest(title, text, msgId, sender);
      var once := Polled(v, input, now, uuid);
      Polled(once, input, now, uuid) == once
  {
  }

  // ---------------------------------------------------------------- the mutable state

  class AgentState {
    var listening: bool
    var pollInterval: real
    var lastMessageKeys: map<string, string>
    var pending: map<string, PendingMessage>
    var order: seq<string>
    var outbox: seq<Envelope>

    function View(): WorkerView
      reads this
    {
      WorkerView(listening, pollInterval, lastMessageKeys, pending, order, outbox)
    }

    constructor ()
      ensures View() == Initial()
    {
      listening := false;
      pollInterval := DefaultPollInterval;
      lastMessageKeys := map[];
      pending := map[];
      order := [];
      outbox := [];
    }

    /** `send_with_ack`. */
    method SendWithAck(kind: string, payload: Json, now: nat, uuid: nat -> string)
      modifies this
      ensures View() == Tracking(old(View()), kind, payload, now, uuid)
    {
      var e := MakeEnvelope(kind, payload, None, uuid(|outbox|), now / 1000);
      outbox := outbox + [e];
      if e.id !in pending {
        order := order + [e.id];
      }
      pending := pending[e.id := PendingMessage(e, now, 0)];
    }

    /** `send_ack`. */
    method SendAck(ackId: Json, ok: bool, error: string, now: nat, uuid: nat -> string)
      modifies this
      ensures View() == Acking(old(View()), ackId, ok, error, now, uuid)
    {
      outbox := outbox + [MakeEnvelope("event.ack", AckPayload(ackId, ok, error), None, uuid(|outbox|), now / 1000)];
    }

    /** `emit_error`. */
    method EmitError(code: string, message: string, recoverable: bool, now: nat, uuid: nat -> string)
      modifies this
      ensures View() == ErrorEmitted(old(View()), code, message, recoverable, now, uuid)
    {
      SendWithAck("agent.error", ErrorPayloadJson(code, message, recoverable), now, uuid);
    }

    /** `emit_status`. */
    method EmitStatus(state: string, detail: string, now: nat, uuid: nat -> string)
      modifies this
      ensures View() == StatusEmitted(old(View()), state, detail, now, uuid)
    {
      SendWithAck("agent.status", StatusPayloadJson(state, detail), now, uuid);
    }

    /** `write_input`. */
    method WriteInput(write: WriteOutcome, now: nat, uuid: nat -> string)
      modifies this
      ensures View() == WriteInputDone(old(View()), write, now, uuid)
    {
      match write
      case NoWechat(e) =>
        EmitError(WriteFailed, e, true, now, uuid);
        SendWithAck("input.result", ResultPayloadJson(false, e), now, uuid);
      case NoClipboard(e) =>
        SendWithAck("input.result", ResultPayloadJson(false, e), now, uuid);
      case Pasted =>
        SendWithAck("input.result", ResultPayloadJson(true, ""), now, uuid);
      case PasteFailed(e) =>
        SendWithAck("input.result", ResultPayloadJson(false, e), now, uuid);
    }

    /** `handle_command`; `completed` is false where the handler raises. */
    method HandleCommand(message: Json, now: nat, uuid: nat -> string, write: WriteOutcome) returns (completed: bool)
      modifies this
      ensures Handled(View(), completed) == Command(old(View()), message, now, uuid, write)
    {
      if !message.JObj? {
        return false;
      }
      var kind := Field(message.fields, "type", JStr(""));
      var id := Field(message.fields, "id", JStr(""));
      var payload := Field(message.fields, "payload", JObj(map[]));
      if kind == JStr("event.ack") {
        if !payload.JObj? {
          return false;
        }
        var ackId := Field(payload.fields, "ack_id", JNull);
        if ackId.JStr? && ackId.s in pending {
          pending := pending - {ackId.s};
          order := Remove(order, ackId.s);
        }
        return true;
      }
      if Truthy(id) {
        SendAck(id, true, "", now, uuid);
      }
      completed := DispatchCommand(kind, payload, now, uuid, write);
    }

    /** The part of `handle_command` after the acknowledgement. */
    method DispatchCommand(kind: Json, payload: Json, now: nat, uuid: nat -> string, write: WriteOutcome) returns (completed: bool)
      modifies this
      ensures Handled(View(), completed) == Dispatch(old(View()), kind, payload, now, uuid, write)
    {
      ghost var v := View();
      if IsListenKind(kind) {
        assert Dispatch(v, kind, payload, now, uuid, write) == Listen(v, kind, payload, now, uuid);
        completed := ListenCommand(kind, payload, now, uuid);
      } else if kind == JStr("input.write") {
        assert Dispatch(v, kind, payload, now, uuid, write) == InputWrite(v, payload, now, uuid, write);
        completed := InputWriteCommand(payload, now, uuid, write);
      } else {
        completed := true;
      }
    }

    method ListenCommand(kind: Json, payload: Json, now: nat, uuid: nat -> string) returns (completed: bool)
      modifies this
      ensures Handled(View(), completed) == Listen(old(View()), kind, payload, now, uuid)
    {
      if kind == JStr("listen.start") || kind == JStr("listen.resume") {
        if !payload.JObj? {
          return false;
        }
        pollInterval := NextInterval(pollInterval, Field(payload.fields, "poll_interval_ms", JNull));
        listening := true;
        EmitStatus("listening", "", now, uuid);
        return true;
      }
      listening := false;
      if kind == JStr("listen.pause") {
        EmitStatus("paused", "", now, uuid);
      } else {
        EmitStatus("idle", "", now, uuid);
      }
      return true;
    }

    method InputWriteCommand(payload: Json, now: nat, uuid: nat -> string, write: WriteOutcome) returns (completed: bool)
      modifies this
      ensures Handled(View(), completed) == InputWrite(old(View()), payload, now, uuid, write)
    {
      if !payload.JObj? {
        return false;
      }
      var chatId := PyStr(Field(payload.fields, "chat_id", JStr("")));
      var text := PyStr(Field(payload.fields, "text", JStr("")));
      if PyBlank(chatId) || PyBlank(text) {
        SendWithAck("input.result", ResultPayloadJson(false, EmptyWriteError), now, uuid);
        return true;
      }
      WriteInput(write, now, uuid);
      return true;
    }

    /** `process_pending`: one pass over a snapshot of the pending ids. */
    method ProcessPending(now: nat)
      modifies this
      ensures View() == Swept(old(View()), now)
    {
      var snapshot := order;
      var i := 0;
      while i < |snapshot|
        invariant 0 <= i <= |snapshot|
        invariant Sweep(old(View()), snapshot, now) == Sweep(View(), snapshot[i..], now)
      {
        var k := snapshot[i];
        assert snapshot[i..][0] == k && snapshot[i..][1..] == snapshot[i + 1..];
        if k in pending {
          var p := pending[k];
          if now - p.sentAt < AckTimeoutMs {
          } else if p.retries >= MaxAckRetries {
            pending := pending - {k};
            order := Remove(order, k);
          } else {
            outbox := outbox + [p.envelope];
            pending := pending[k := p.(sentAt := now, retries := p.retries + 1)];
          }
        }
        i := i + 1;
      }
    }

    /** `poll_messages`. */
    method PollMessages(input: PollInput, now: nat, uuid: nat -> string)
      modifies this
      ensures View() == Polled(old(View()), input, now, uuid)
    {
      match input
      case InitFailed(e) =>
        EmitError(ListenFailed, e, true, now, uuid);
        listening := false;
        EmitStatus("error", "listen initialization failed", now, uuid);
      case FetchFailed(e) =>
        EmitError(ListenFailed, "fetch messages failed: " + e, true, now, uuid);
      case NoMessages =>
      case Latest(title, text, msgId, sender) =>
        if text == "" {
          return;
        }
        var timestamp := now / 1000;
        var key := PollKey(text, msgId, timestamp);
        if title in lastMessageKeys && lastMessageKeys[title] == key {
          return;
        }
        lastMessageKeys := lastMessageKeys[title := key];
        var name := if sender == "" then title else sender;
        SendWithAck("message.new", MessageNewJson(MessageNewPayload(title, title, false, name, text, timestamp, msgId)), now, uuid);
    }
  }
}
