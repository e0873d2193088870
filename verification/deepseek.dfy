/**
 * The reply-suggestion client: the request bodies it sends to the chat
 * completion endpoint, the numbered prompt built from a chat's context, the
 * parsing of the model's answer into suggestions, the three-style fallback,
 * and the decision between parsed output and fallback.
 *
 * The HTTP exchange itself is not modelled: its outcome (a failure at one of
 * its stages, or a status and a body) is a parameter, and so is serde_json's
 * text parser (`parse`).
 */
module Deepseek {
  import opened Base
  import opened Text
  import opened Json
  import opened Types

  const SystemPrompt: string := "你是回复建议助手。请根据对话内容生成 3 条回复建议，分别为正式、中性、轻松风格。返回 JSON 数组，每个元素包含 style(formal|neutral|casual) 与 text。"
  const ValidationPrompt: string := "请回复一个简短确认词，用于验证连接。"
  const EmptyContextPrompt: string := "用户未提供上下文，请生成礼貌的确认回复。"
  const PromptHeader: string := "最近对话："
  const PromptTrailer: string := "请生成 3 条回复建议。"
  const DefaultSummary: string := "消息"

  const ErrClient: string := "创建 HTTP 客户端失败"
  const ErrRequest: string := "DeepSeek 请求失败"
  const ErrRead: string := "读取 DeepSeek 响应失败"
  const ErrTimeout: string := "DeepSeek 连接超时"
  const ErrConnect: string := "DeepSeek 连接失败"
  const ErrResponseJson: string := "响应 JSON 解析失败"

  // ---------------------------------------------------------------- timeout

  /** `cap_timeout_ms`: `min(8000)` then `max(2000)`. */
  function CapTimeout(timeoutMs: nat): (r: nat)
    ensures 2000 <= r <= 8000
    ensures 2000 <= timeoutMs <= 8000 ==> r == timeoutMs
    ensures timeoutMs > 8000 ==> r == 8000
    ensures timeoutMs < 2000 ==> r == 2000
  {
    var capped := if timeoutMs < 8000 then timeoutMs else 8000;
    if capped > 2000 then capped else 2000
  }

  /** Capping is idempotent and monotone; the default 12 s becomes 8 s. */
  lemma CapTimeoutProperties(a: nat, b: nat)
    ensures CapTimeout(CapTimeout(a)) == CapTimeout(a)
    ensures a <= b ==> CapTimeout(a) <= CapTimeout(b)
    ensures CapTimeout(12000) == 8000
  {
  }

  // ---------------------------------------------------------------- requests

  function RoleMessage(role: string, content: string): Json {
    JObj(map["role" := JStr(role), "content" := JStr(content)])
  }

  /** `build_request`. */
  function BuildRequest(userInput: string, suggestionCount: nat, model: string, temperature: real, topP: real): Json {
    JObj(map[
      "model" := JStr(model),
      "messages" := JArr([RoleMessage("system", SystemPrompt), RoleMessage("user", userInput)]),
      "temperature" := JReal(temperature),
      "top_p" := JReal(topP),
      "n" := JInt(suggestionCount),
      "stream" := JBool(false)])
  }

  /** `build_validation_request`: one choice, temperature 0, top_p 1. */
  function BuildValidationRequest(userInput: string, model: string): Json {
    JObj(map[
      "model" := JStr(model),
      "messages" := JArr([RoleMessage("system", ValidationPrompt), RoleMessage("user", userInput)]),
      "temperature" := JReal(0.0),
      "top_p" := JReal(1.0),
      "n" := JInt(1),
      "stream" := JBool(false)])
  }

  /** The shape every chat request shares: the model, exactly two messages (the
      given system prompt, then the user input), no streaming. */
  predicate ChatShaped(j: Json, model: string, system: string, userInput: string) {
    && Get(j, "model") == JStr(model)
    && Get(j, "messages").JArr? && |Get(j, "messages").items| == 2
    && AsStr(Get(At(Get(j, "messages"), 0), "role")) == Some("system")
    && AsStr(Get(At(Get(j, "messages"), 0), "content")) == Some(system)
    && AsStr(Get(At(Get(j, "messages"), 1), "role")) == Some("user")
    && AsStr(Get(At(Get(j, "messages"), 1), "content")) == Some(userInput)
    && Get(j, "stream") == JBool(false)
  }

  lemma BuildRequestShape(userInput: string, suggestionCount: nat, model: string, temperature: real, topP: real)
    ensures var j := BuildRequest(userInput, suggestionCount, model, temperature, topP);
      && ChatShaped(j, model, SystemPrompt, userInput)
      && Get(j, "n") == JInt(suggestionCount)
      && Get(j, "temperature") == JReal(temperature) && Get(j, "top_p") == JReal(topP)
  {
  }

  lemma BuildValidationRequestShape(userInput: string, model: string)
    ensures var j := BuildValidationRequest(userInput, model);
      && ChatShaped(j, model, ValidationPrompt, userInput)
      && Get(j, "n") == JInt(1) && Get(j, "temperature") == JReal(0.0) && Get(j, "top_p") == JReal(1.0)
  {
  }

  // ---------------------------------------------------------------- prompt

  function NumberedLine(k: nat, message: string): string {
    NatToString(k + 1) + ": " + message
  }

  function NumberedLines(context: seq<string>): (ls: seq<string>)
    ensures |ls| == |context|
    ensures forall k :: 0 <= k < |context| ==> ls[k] == NumberedLine(k, context[k])
  {
    seq(|context|, k requires 0 <= k < |context| => NumberedLine(k, context[k]))
  }

  /** The prompt `build_prompt` returns. */
  function Prompt(context: seq<string>): string {
    if context == [] then EmptyContextPrompt
    else PromptHeader + "\n" + Join(NumberedLines(context), "\n") + "\n" + PromptTrailer
  }

  /** `build_prompt`: numbers the context messages from 1 in a loop. */
  method BuildPrompt(context: seq<string>) returns (prompt: string)
    ensures prompt == Prompt(context)
  {
    if |context| == 0 {
      return EmptyContextPrompt;
    }
    var lines: seq<string> := [];
    for idx := 0 to |context|
      invariant |lines| == idx
      invariant forall k :: 0 <= k < idx ==> lines[k] == NumberedLine(k, context[k])
    {
      lines := lines + [NatToString(idx + 1) + ": " + context[idx]];
    }
    assert lines == NumberedLines(context);
    prompt := PromptHeader + "\n" + Join(lines, "\n") + "\n" + PromptTrailer;
  }

  lemma NumberedLinePlain(k: nat, message: string)
    requires PlainLine(message)
    ensures PlainLine(NumberedLine(k, message))
  {
    var d := NatToString(k + 1);
    var l := NumberedLine(k, message);
    forall i | 0 <= i < |l| ensures l[i] != '\n' {
      if i < |d| {
        assert l[i] == d[i];
      } else if i >= |d| + 2 {
        assert l[i] == message[i - |d| - 2];
      }
    }
    if message == [] {
      assert l[|l| - 1] == ' ';
    } else {
      assert l[|l| - 1] == message[|message| - 1];
    }
  }

  lemma FixedLinesPlain()
    ensures PlainLine(PromptHeader) && PlainLine(PromptTrailer) && PromptTrailer != []
  {
    assert forall i :: 0 <= i < |PromptHeader| ==> PromptHeader[i] != '\n';
    assert forall i :: 0 <= i < |PromptTrailer| ==> PromptTrailer[i] != '\n';
  }

  /** Read back line by line, a prompt for a non-empty context is the header, then
      "k: message" for k = 1, 2, ... in order, then the closing request, provided no
      message holds a line break of its own. */
  lemma PromptLines(context: seq<string>)
    requires forall k :: 0 <= k < |context| ==> PlainLine(context[k])
    ensures context == [] ==> Prompt(context) == EmptyContextPrompt
    ensures context != [] ==> Lines(Prompt(context)) == [PromptHeader] + NumberedLines(context) + [PromptTrailer]
  {
    if context != [] {
      var ls := NumberedLines(context);
      forall k | 0 <= k < |ls| ensures PlainLine(ls[k]) {
        NumberedLinePlain(k, context[k]);
      }
      FixedLinesPlain();
      var j := Join(ls, "\n");
      var rest := j + "\n" + PromptTrailer;
      LinesOfJoinThen(ls, PromptTrailer);
      LinesSingle(PromptTrailer);
      assert Lines(rest) == ls + [PromptTrailer];
      SeqAssoc5(PromptHeader, "\n", j, "\n", PromptTrailer);
      assert Prompt(context) == PromptHeader + "\n" + rest;
      LinesCons(PromptHeader, rest);
      SeqAssoc3([PromptHeader], ls, [PromptTrailer]);
    }
  }

  // ---------------------------------------------------------------- parsing

  /** serde's lower-case names of the suggestion styles. */
  function StyleName(s: SuggestionStyle): string {
    match s
    case Formal => "formal"
    case Neutral => "neutral"
    case Casual => "casual"
  }

  /** The style of a parsed item: "formal" and "casual" are recognised, everything
      else is neutral. */
  function StyleOf(name: string): SuggestionStyle {
    if name == "formal" then Formal else if name == "casual" then Casual else Neutral
  }

  /** Every style survives being written by name and read back; a name that is
      neither "formal" nor "casual" reads as neutral. */
  lemma StyleNames(s: SuggestionStyle, name: string)
    ensures StyleOf(StyleName(s)) == s
    ensures name != "formal" && name != "casual" ==> StyleOf(name) == Neutral
  {
  }

  /** A suggestion text as the parser leaves it: non-empty and trimmed. */
  predicate CleanText(t: string) {
    t != [] && Trim(t) == t
  }

  /** One array item: style from `item["style"]` (default "neutral"), text from
      `item["text"]` trimmed (default ""); a blank text drops the item. */
  function ItemSuggestion(item: Json): (r: Option<Suggestion>)
    ensures r.Some? <==> Trim(AsStr(Get(item, "text")).GetOr("")) != []
    ensures r.Some? ==> CleanText(r.value.text)
  {
    var style := StyleOf(AsStr(Get(item, "style")).GetOr("neutral"));
    var text := Trim(AsStr(Get(item, "text")).GetOr(""));
    TrimIdempotent(Rust, AsStr(Get(item, "text")).GetOr(""));
    if text != [] then Some(Suggestion(style, text)) else None
  }

  function OptionSeq<T>(o: Option<T>): seq<T> {
    match o
    case None => []
    case Some(x) => [x]
  }

  /** The suggestions the item loop collects, item by item. */
  function FromItems(items: seq<Json>): (r: seq<Suggestion>)
    ensures |r| <= |items|
    ensures forall k :: 0 <= k < |r| ==> CleanText(r[k].text)
  {
    if items == [] then []
    else FromItems(items[..|items| - 1]) + OptionSeq(ItemSuggestion(items[|items| - 1]))
  }

  /** `'-'` and `' '`, the characters stripped from a plain-text answer line. */
  predicate DashOrSpace(c: char) {
    c == '-' || c == ' '
  }

  function TrimDashSpace(s: string): (r: string)
    ensures |r| <= |s|
    decreases |s|
  {
    if s != [] && DashOrSpace(s[0]) then TrimDashSpace(s[1..])
    else if s != [] && DashOrSpace(s[|s| - 1]) then TrimDashSpace(s[..|s| - 1])
    else s
  }

  /** One line of a plain-text answer: dashes and spaces stripped, then trimmed;
      a neutral suggestion unless that leaves nothing. */
  function LineSuggestion(line: string): (r: Option<Suggestion>)
    ensures r.Some? ==> CleanText(r.value.text) && r.value.style == Neutral
  {
    var text := Trim(TrimDashSpace(line));
    TrimIdempotent(Rust, TrimDashSpace(line));
    if text == [] then None else Some(Suggestion(Neutral, text))
  }

  function FromLines(ls: seq<string>): (r: seq<Suggestion>)
    ensures |r| <= |ls|
    ensures forall k :: 0 <= k < |r| ==> CleanText(r[k].text) && r[k].style == Neutral
  {
    if ls == [] then [] else OptionSeq(LineSuggestion(ls[0])) + FromLines(ls[1..])
  }

  /** `json["choices"][0]["message"]["content"]` as a string (default ""), trimmed. */
  function ResponseContent(v: Json): string {
    Trim(AsStr(Get(Get(At(Get(v, "choices"), 0), "message"), "content")).GetOr(""))
  }

  /** The content with leading "```json" fences and trailing "```" fences removed, trimmed. */
  function Cleaned(content: string): string {
    Trim(TrimEndMatches(TrimStartMatches(content, "```json"), "```"))
  }

  /** The result `parse_response` computes. */
  function ParsedResponse(raw: string, parse: string -> Option<Json>): Result<seq<Suggestion>, string> {
    match parse(raw)
    case None => Err(ErrResponseJson)
    case Some(v) =>
      var content := ResponseContent(v);
      if content == [] then Ok([])
      else
        var cleaned := Cleaned(content);
        match parse(cleaned)
        case Some(JArr(items)) => Ok(FromItems(items))
        case _ => Ok(FromLines(Lines(cleaned)))
  }

  /** `parse_response`. */
  method ParseResponse(raw: string, parse: string -> Option<Json>) returns (r: Result<seq<Suggestion>, string>)
    ensures r == ParsedResponse(raw, parse)
  {
    var value := parse(raw);
    if value.None? {
      return Err(ErrResponseJson);
    }
    var content := ResponseContent(value.value);
    if content == [] {
      return Ok([]);
    }
    var cleaned := Cleaned(content);
    var parsed := parse(cleaned);
    if parsed.Some? && parsed.value.JArr? {
      var suggestions := CollectSuggestions(parsed.value.items);
      return Ok(suggestions);
    }
    return Ok(FromLines(Lines(cleaned)));
  }

  /** The loop over a JSON array answer: each item with a non-blank trimmed
      text becomes a suggestion, in order. */
  method CollectSuggestions(items: seq<Json>) returns (suggestions: seq<Suggestion>)
    ensures suggestions == FromItems(items)
  {
    suggestions := [];
    for i := 0 to |items|
      invariant suggestions == FromItems(items[..i])
    {
      var item := items[i];
      var style := StyleOf(AsStr(Get(item, "style")).GetOr("neutral"));
      var text := Trim(AsStr(Get(item, "text")).GetOr(""));
      if text != [] {
        suggestions := suggestions + [Suggestion(style, text)];
      }
      assert items[..i + 1][..i] == items[..i];
    }
    assert items[..|items|] == items;
  }

  /** What a successful parse promises: unparseable JSON is an error, a blank
      content gives no suggestions, and every suggestion has a non-empty trimmed
      text; a plain-text answer gives only neutral suggestions. */
  lemma ParsedResponseProperties(raw: string, parse: string -> Option<Json>)
    ensures parse(raw).None? <==> ParsedResponse(raw, parse).Err?
    ensures parse(raw).Some? && ResponseContent(parse(raw).value) == [] ==> ParsedResponse(raw, parse) == Ok([])
    ensures ParsedResponse(raw, parse).Ok? ==>
      forall k :: 0 <= k < |ParsedResponse(raw, parse).value| ==> CleanText(ParsedResponse(raw, parse).value[k].text)
    ensures (parse(raw).Some? && ResponseContent(parse(raw).value) != []
             && !(parse(Cleaned(ResponseContent(parse(raw).value))).Some? && parse(Cleaned(ResponseContent(parse(raw).value))).value.JArr?)) ==>
      forall k :: 0 <= k < |ParsedResponse(raw, parse).value| ==> ParsedResponse(raw, parse).value[k].style == Neutral
  {
  }

  /** The values of `f` over `xs` that are present, in order. */
  function Somes<T, U>(f: T -> Option<U>, xs: seq<T>): seq<U> {
    if xs == [] then [] else Somes(f, xs[..|xs| - 1]) + OptionSeq(f(xs[|xs| - 1]))
  }

  lemma {:induction false} FromItemsIsSomes(items: seq<Json>)
    ensures FromItems(items) == Somes(ItemSuggestion, items)
  {
    if items != [] {
      FromItemsIsSomes(items[..|items| - 1]);
    }
  }

  /** When `f` gives a value for every element, all of them are kept, in order. */
  lemma {:induction false} SomesKeepsAll<T, U>(f: T -> Option<U>, xs: seq<T>)
    requires forall k :: 0 <= k < |xs| ==> f(xs[k]).Some?
    ensures |Somes(f, xs)| == |xs|
    ensures forall k :: 0 <= k < |xs| ==> Somes(f, xs)[k] == f(xs[k]).value
  {
    if xs != [] {
      var init := xs[..|xs| - 1];
      assert forall k :: 0 <= k < |init| ==> init[k] == xs[k];
      SomesKeepsAll(f, init);
    }
  }

  /** When every item carries a non-blank text, the loop keeps each of them, in order. */
  lemma FromItemsKeepsAll(items: seq<Json>)
    requires forall k :: 0 <= k < |items| ==> ItemSuggestion(items[k]).Some?
    ensures |FromItems(items)| == |items|
    ensures forall k :: 0 <= k < |items| ==> FromItems(items)[k] == ItemSuggestion(items[k]).value
  {
    FromItemsIsSomes(items);
    SomesKeepsAll(ItemSuggestion, items);
  }

  /** The JSON item the model is asked to answer with. */
  function SuggestionJson(s: Suggestion): Json {
    JObj(map["style" := JStr(StyleName(s.style)), "text" := JStr(s.text)])
  }

  /** Suggestions written as the requested JSON array are read back exactly. */
  lemma SuggestionsRoundTrip(ss: seq<Suggestion>)
    requires forall k :: 0 <= k < |ss| ==> CleanText(ss[k].text)
    ensures FromItems(seq(|ss|, k requires 0 <= k < |ss| => SuggestionJson(ss[k]))) == ss
  {
    var items := seq(|ss|, k requires 0 <= k < |ss| => SuggestionJson(ss[k]));
    forall k | 0 <= k < |items| ensures ItemSuggestion(items[k]) == Some(ss[k]) {
      var j := items[k];
      assert Get(j, "style") == JStr(StyleName(ss[k].style));
      assert Get(j, "text") == JStr(ss[k].text);
      StyleNames(ss[k].style, "");
    }
    FromItemsKeepsAll(items);
  }

  // ---------------------------------------------------------------- fallback

  /** `summarize_text`: the first 20 characters, or a placeholder for empty input. */
  function SummarizeText(text: string): (r: string)
    ensures r != [] && |r| <= 20
    ensures text != [] ==> r <= text && |r| == if |text| < 20 then |text| else 20
    ensures text == [] ==> r == DefaultSummary
  {
    var taken := if |text| < 20 then text else text[..20];
    if taken == [] then DefaultSummary else taken
  }

  /** `fallback_suggestions`: one suggestion per style, each quoting the summary. */
  function FallbackSuggestions(prompt: string): (r: seq<Suggestion>)
    ensures |r| == 3
    ensures r[0].style == Formal && r[1].style == Neutral && r[2].style == Casual
    ensures forall k :: 0 <= k < 3 ==> Contains(r[k].text, SummarizeText(prompt))
  {
    var summary := SummarizeText(prompt);
    ContainsInfix("好的，我了解了：", summary, "，稍后给您回复。");
    ContainsInfix("收到，我看看 ", summary, " 再回复你。");
    ContainsInfix("好哒～", summary, " 我等下回你。");
    [ Suggestion(Formal, "好的，我了解了：" + summary + "，稍后给您回复。"),
      Suggestion(Neutral, "收到，我看看 " + summary + " 再回复你。"),
      Suggestion(Casual, "好哒～" + summary + " 我等下回你。") ]
  }

  // ---------------------------------------------------------------- generation

  /** How an HTTP exchange ended: a failure at one of its stages, or a response. */
  datatype HttpOutcome =
    | ClientFailed
    | TimedOut
    | SendFailed
    | ReadFailed
    | Response(status: nat, body: string)

  predicate IsSuccess(status: nat) {
    200 <= status < 300
  }

  datatype HttpRequest = HttpRequest(url: string, timeoutMs: nat, bearer: string, body: Json)

  function CompletionsUrl(baseUrl: string): string {
    TrimEndMatches(baseUrl, "/") + "/v1/chat/completions"
  }

  /** The request `generate_suggestions` sends: the configured timeout is used as it
      is, without `cap_timeout_ms`. */
  function GenerationRequest(config: Config, key: string, context: seq<string>): HttpRequest {
    HttpRequest(CompletionsUrl(config.baseUrl), config.timeoutMs, key,
      BuildRequest(Prompt(context), config.suggestionCount, config.deepseekModel, config.temperature, config.topP))
  }

  /** `generate_suggestions`: no key means fallback without a request; a transport
      failure is an error; a non-success status, a parse error or an empty parse
      means fallback; otherwise the parsed suggestions. There is a single attempt.
      A timeout surfaces from the client as a failed send. */
  function GenerateSuggestions(config: Config, apiKey: Option<string>, context: seq<string>,
                               outcome: HttpOutcome, parse: string -> Option<Json>): Result<seq<Suggestion>, string>
  {
    var prompt := Prompt(context);
    match apiKey
    case None => Ok(FallbackSuggestions(prompt))
    case Some(_) =>
      match outcome
      case ClientFailed => Err(ErrClient)
      case TimedOut => Err(ErrRequest)
      case SendFailed => Err(ErrRequest)
      case ReadFailed => Err(ErrRead)
      case Response(status, body) =>
        if !IsSuccess(status) then Ok(FallbackSuggestions(prompt))
        else
          match ParsedResponse(body, parse)
          case Ok(s) => if s != [] then Ok(s) else Ok(FallbackSuggestions(prompt))
          case Err(_) => Ok(FallbackSuggestions(prompt))
  }

  /** Generation fails only when a key is present and the exchange itself failed;
      every success carries at least one suggestion; without a key, or on a
      non-success status, the fallback is used; parsed suggestions are used as they
      are whenever there are any. */
  lemma GenerateOutcomes(config: Config, apiKey: Option<string>, context: seq<string>,
                         outcome: HttpOutcome, parse: string -> Option<Json>)
    ensures var r := GenerateSuggestions(config, apiKey, context, outcome, parse);
      && (r.Err? <==> apiKey.Some? && !outcome.Response?)
      && (r.Ok? ==> r.value != [])
      && (apiKey.None? ==> r == Ok(FallbackSuggestions(Prompt(context))))
      && (apiKey.Some? && outcome.Response? && !IsSuccess(outcome.status) ==> r == Ok(FallbackSuggestions(Prompt(context))))
      && (apiKey.Some? && outcome.Response? && IsSuccess(outcome.status)
          && ParsedResponse(outcome.body, parse).Ok? && ParsedResponse(outcome.body, parse).value != [] ==>
            r == ParsedResponse(outcome.body, parse))
  {
  }

  datatype ValidationError = Failed(message: string) | Rejected(status: nat, detail: string)

  /** The request `validate_api_key` sends: "ping", with the timeout capped. */
  function ValidationRequest(config: Config, key: string): (q: HttpRequest)
    ensures 2000 <= q.timeoutMs <= 8000
  {
    HttpRequest(CompletionsUrl(config.baseUrl), CapTimeout(config.timeoutMs), key,
      BuildValidationRequest("ping", config.deepseekModel))
  }

  /** `validate_api_key`: any success status validates the key; a rejection keeps
      the first 200 characters of the body. */
  function ValidateApiKey(outcome: HttpOutcome): (r: Result<(), ValidationError>)
    ensures r.Ok? <==> outcome.Response? && IsSuccess(outcome.status)
    ensures r.Err? && r.error.Rejected? ==>
      outcome.Response? && r.error.status == outcome.status
      && r.error.detail <= outcome.body && |r.error.detail| <= 200
  {
    match outcome
    case ClientFailed => Err(Failed(ErrClient))
    case TimedOut => Err(Failed(ErrTimeout))
    case SendFailed => Err(Failed(ErrConnect))
    case ReadFailed => Err(Failed(ErrRead))
    case Response(status, body) =>
      if IsSuccess(status) then Ok(())
      else Err(Rejected(status, if |body| <= 200 then body else body[..200]))
  }
}
