/**
 * The host's shared application state: configuration, runtime status, the
 * running worker (if any), the normalised listen targets, and per chat the
 * rolling message history and the key of the last message seen, which
 * decides whether the next message is a duplicate.
 */
module State {
  import opened Base
  import opened Text
  import opened Types
  import ListenTargets

  datatype ChatMessage = ChatMessage(text: string, timestamp: nat, msgId: Option<string>)

  /** The running worker process; only its presence matters to the model. */
  datatype AgentHandle = AgentHandle(id: nat)

  /** A value snapshot of every modelled field of `AppState`. */
  datatype AppView = AppView(
    config: Config,
    status: Status,
    agent: Option<AgentHandle>,
    listenTargets: seq<ListenTarget>,
    conversations: map<string, seq<ChatMessage>>,
    lastMessageKeys: map<string, string>)

  // ---------------------------------------------------------------- dedup key

  /** The message id when there is one, otherwise `text:timestamp`. */
  function DedupeKey(msgId: Option<string>, text: string, timestamp: nat): string {
    match msgId
    case Some(id) => id
    case None => text + ":" + NatToString(timestamp)
  }

  lemma {:induction false} NatToStringLength(n: nat)
    ensures n >= 10 ==> |NatToString(n)| >= 2
  {
  }

  /** Decimal rendering is injective. */
  lemma {:induction false} NatToStringInjective(a: nat, b: nat)
    requires NatToString(a) == NatToString(b)
    ensures a == b
  {
    var sa, sb := NatToString(a), NatToString(b);
    if a < 10 && b < 10 {
      assert DigitChar(a) == sa[0] == sb[0] == DigitChar(b);
    } else if a < 10 || b < 10 {
      NatToStringLength(a);
      NatToStringLength(b);
    } else {
      var pa, pb := NatToString(a / 10), NatToString(b / 10);
      assert sa == pa + [DigitChar(a % 10)] && sb == pb + [DigitChar(b % 10)];
      assert pa == sa[..|sa| - 1] == sb[..|sb| - 1] == pb;
      NatToStringInjective(a / 10, b / 10);
      assert DigitChar(a % 10) == sa[|sa| - 1] == DigitChar(b % 10);
    }
  }

  lemma ColonJoinAt(t: string, d: string, k: int)
    ensures 0 <= k < |t| + 1 + |d| ==>
      (t + ":" + d)[k] == if k < |t| then t[k] else if k == |t| then ':' else d[k - |t| - 1]
  {
  }

  /** Splitting `t + ":" + d` at its last ':' recovers `t` and `d` when `d` holds no ':'. */
  lemma SplitAtLastColon(t1: string, d1: string, t2: string, d2: string)
    requires ':' !in d1 && ':' !in d2
    requires t1 + ":" + d1 == t2 + ":" + d2
    ensures t1 == t2 && d1 == d2
  {
    var s := t1 + ":" + d1;
    assert s == t2 + ":" + d2;
    if |d1| < |d2| {
      ColonJoinAt(t1, d1, |t1|);
      ColonJoinAt(t2, d2, |t1|);
      assert false;
    } else if |d2| < |d1| {
      ColonJoinAt(t1, d1, |t2|);
      ColonJoinAt(t2, d2, |t2|);
      assert false;
    }
    assert t1 == s[..|t1|] == t2;
    assert d1 == s[|t1| + 1..] == d2;
  }

  /** Without message ids, two messages of a chat share a key exactly when they
      have the same text and the same timestamp. */
  lemma DedupeKeyWithoutIdIsExact(text1: string, ts1: nat, text2: string, ts2: nat)
    ensures DedupeKey(None, text1, ts1) == DedupeKey(None, text2, ts2) <==> text1 == text2 && ts1 == ts2
  {
    if DedupeKey(None, text1, ts1) == DedupeKey(None, text2, ts2) {
      var d1, d2 := NatToString(ts1), NatToString(ts2);
      assert ':' !in d1 && ':' !in d2 by {
        forall i | 0 <= i < |d1| ensures d1[i] != ':' { }
        forall i | 0 <= i < |d2| ensures d2[i] != ':' { }
      }
      SplitAtLastColon(text1, d1, text2, d2);
      NatToStringInjective(ts1, ts2);
    }
  }

  /** An id-less key can collide with a message id that happens to read `text:timestamp`. */
  lemma DedupeKeyCanCollideAcrossKinds()
    ensures DedupeKey(Some("hi:5"), "other", 9) == DedupeKey(None, "hi", 5)
  {
    assert NatToString(5) == "5";
  }

  // ---------------------------------------------------------------- history trimming

  /** Characters (Unicode scalar values) over all message texts. */
  function TotalChars(m: seq<ChatMessage>): nat {
    if m == [] then 0 else |m[0].text| + TotalChars(m[1..])
  }

  lemma {:induction false} TotalCharsStep(m: seq<ChatMessage>, i: nat)
    requires i < |m|
    ensures TotalChars(m[i..]) == |m[i].text| + TotalChars(m[i + 1..])
  {
    assert m[i..][1..] == m[i + 1..];
  }

  /** A longer suffix never holds fewer characters. */
  lemma {:induction false} TotalCharsAntitone(m: seq<ChatMessage>, i: nat, j: nat)
    requires i <= j <= |m|
    ensures TotalChars(m[i..]) >= TotalChars(m[j..])
    decreases j - i
  {
    if i < j {
      TotalCharsStep(m, i);
      TotalCharsAntitone(m, i + 1, j);
    }
  }

  /** Oldest messages dropped until at most `max` remain. */
  function CountTrim(m: seq<ChatMessage>, max: nat): seq<ChatMessage> {
    if |m| > max then m[|m| - max..] else m
  }

  /** The first position from which the remaining messages fit in `maxChars`. */
  function FitStart(m: seq<ChatMessage>, maxChars: nat): (j: nat)
    ensures j <= |m|
    ensures TotalChars(m[j..]) <= maxChars
  {
    if TotalChars(m) <= maxChars then
      assert m[0..] == m;
      0
    else
      var j := FitStart(m[1..], maxChars);
      assert m[1 + j..] == m[1..][j..];
      1 + j
  }

  /** No earlier start fits: `FitStart` is the least fitting position. */
  lemma {:induction false} FitStartIsLeast(m: seq<ChatMessage>, maxChars: nat, i: nat)
    requires i < FitStart(m, maxChars)
    ensures TotalChars(m[i..]) > maxChars
  {
    assert m[0..] == m;
    if i > 0 {
      FitStartIsLeast(m[1..], maxChars, i - 1);
      assert m[i..] == m[1..][i - 1..];
    }
  }

  /** A fitting position right after a non-fitting one (or at 0) is `FitStart`. */
  lemma FitStartAt(m: seq<ChatMessage>, maxChars: nat, k: nat)
    requires k <= |m| && TotalChars(m[k..]) <= maxChars
    requires k == 0 || TotalChars(m[k - 1..]) > maxChars
    ensures FitStart(m, maxChars) == k
  {
    var j := FitStart(m, maxChars);
    if j < k {
      TotalCharsAntitone(m, j, k - 1);
    } else if j > k {
      FitStartIsLeast(m, maxChars, k);
    }
  }

  /** Drop the oldest messages up to `FitStart`, except that nothing is dropped when
      even the newest message alone exceeds the budget. */
  function CharTrim(m: seq<ChatMessage>, maxChars: nat): seq<ChatMessage> {
    var j := FitStart(m, maxChars);
    if j < |m| then m[j..] else m
  }

  /** The history `trim_messages` leaves behind. */
  function TrimmedHistory(m: seq<ChatMessage>, config: Config): seq<ChatMessage> {
    CharTrim(CountTrim(m, config.contextMaxMessages), config.contextMaxChars)
  }

  /** The `remove(0)` loop of `trim_messages`. */
  method RemoveOldest(messages: seq<ChatMessage>, maxMessages: nat) returns (m: seq<ChatMessage>)
    ensures m == CountTrim(messages, maxMessages)
  {
    m := messages;
    while |m| > maxMessages
      invariant m == messages[|messages| - |m|..]
      invariant |messages| > maxMessages ==> |m| >= maxMessages
      invariant |messages| <= maxMessages ==> m == messages
    {
      m := m[1..];
    }
  }

  /** `trim_messages`: `remove(0)` while too many, then a reverse scan summing
      characters that stops at the first message pushing the sum over the budget,
      then one `drain` of everything before the message after it. */
  method TrimMessages(messages: seq<ChatMessage>, config: Config) returns (r: seq<ChatMessage>)
    ensures r == TrimmedHistory(messages, config)
  {
    var m := RemoveOldest(messages, config.contextMaxMessages);

    var maxChars := config.contextMaxChars;
    var total := 0;
    var keepStart := |m|;
    var index := |m|;
    ghost var exceeded := false;
    while index > 0
      invariant 0 <= index <= |m|
      invariant total == TotalChars(m[index..]) <= maxChars
      invariant keepStart == |m|
    {
      index := index - 1;
      TotalCharsStep(m, index);
      total := total + |m[index].text|;
      if total > maxChars {
        keepStart := index + 1;
        exceeded := true;
        break;
      }
    }
    if exceeded {
      FitStartAt(m, maxChars, keepStart);
    } else {
      FitStartAt(m, maxChars, 0);
    }
    if keepStart > 0 && keepStart < |m| {
      m := m[keepStart..];
    }
    return m;
  }

  /** Counting keeps the newest `max` messages, in order. */
  lemma CountTrimProperties(m: seq<ChatMessage>, max: nat)
    ensures var c := CountTrim(m, max);
      && |c| <= |m| && c == m[|m| - |c|..]
      && |c| <= max && (|m| >= max ==> |c| == max)
      && (m != [] && max > 0 ==> c != [] && c[|c| - 1] == m[|m| - 1])
  {
    if |m| > max {
      var c := m[|m| - max..];
      assert |c| == max;
      if max > 0 {
        assert c[|c| - 1] == m[|m| - 1];
      }
    } else {
      assert m[0..] == m;
    }
  }

  /** Character trimming keeps a suffix that still ends with the newest message. */
  lemma CharTrimSuffix(c: seq<ChatMessage>, maxChars: nat)
    ensures var r := CharTrim(c, maxChars);
      && |r| <= |c| && r == c[|c| - |r|..]
      && (c != [] ==> r != [] && r[|r| - 1] == c[|c| - 1])
  {
    var j := FitStart(c, maxChars);
    if j >= |c| {
      assert c[0..] == c;
    } else {
      assert c[j..][|c| - j - 1] == c[|c| - 1];
    }
  }

  /** The suffix character trimming keeps fits the budget exactly when the newest
      message alone does; when it does not, nothing is dropped; and one more
      message would not have fit. */
  lemma CharTrimBudget(c: seq<ChatMessage>, maxChars: nat)
    ensures var r := CharTrim(c, maxChars);
      && (TotalChars(r) > maxChars <==> r != [] && |r[|r| - 1].text| > maxChars)
      && (r != [] && |r[|r| - 1].text| > maxChars ==> r == c)
      && (|r| < |c| ==> TotalChars(c[|c| - |r| - 1..]) > maxChars)
  {
    var j := FitStart(c, maxChars);
    var r := CharTrim(c, maxChars);
    if c != [] {
      var last := |c| - 1;
      TotalCharsStep(c, last);
      assert c[last + 1..] == [];
      if |c[last].text| > maxChars {
        FitStartAt(c, maxChars, |c|);
        assert r == c;
        TotalCharsAntitone(c, 0, last);
        assert c[0..] == c;
      } else {
        if j > last {
          FitStartIsLeast(c, maxChars, last);
        }
        assert r == c[j..];
        assert r[|r| - 1] == c[last];
        if 0 < j {
          FitStartIsLeast(c, maxChars, j - 1);
          assert c[|c| - |r| - 1..] == c[j - 1..];
        }
      }
    }
  }

  /** Character trimming keeps a suffix that still ends with the newest message; the
      suffix fits the budget exactly when the newest message alone does; when it
      does not, nothing is dropped; and one more message would not have fit. */
  lemma CharTrimProperties(c: seq<ChatMessage>, maxChars: nat)
    ensures var r := CharTrim(c, maxChars);
      && |r| <= |c| && r == c[|c| - |r|..]
      && (c != [] ==> r != [] && r[|r| - 1] == c[|c| - 1])
      && (TotalChars(r) > maxChars <==> r != [] && |r[|r| - 1].text| > maxChars)
      && (r != [] && |r[|r| - 1].text| > maxChars ==> r == c)
      && (|r| < |c| ==> TotalChars(c[|c| - |r| - 1..]) > maxChars)
  {
    CharTrimSuffix(c, maxChars);
    CharTrimBudget(c, maxChars);
  }

  /** What trimming guarantees: the result is a suffix of the history; it holds at
      most `context_max_messages` messages (none for a limit of 0); the newest
      message always survives a positive limit; the characters stay within
      `context_max_chars` exactly when the newest message alone does, and when it
      does not no message is dropped for characters at all; and one more message
      would not have fit. */
  lemma TrimmedHistoryProperties(m: seq<ChatMessage>, config: Config)
    ensures var r := TrimmedHistory(m, config);
      var c := CountTrim(m, config.contextMaxMessages);
      && |r| <= |m| && r == m[|m| - |r|..]
      && |r| <= config.contextMaxMessages
      && (config.contextMaxMessages == 0 ==> r == [])
      && (m != [] && config.contextMaxMessages > 0 ==> r != [] && r[|r| - 1] == m[|m| - 1])
      && (TotalChars(r) > config.contextMaxChars <==> r != [] && |r[|r| - 1].text| > config.contextMaxChars)
      && (r != [] && |r[|r| - 1].text| > config.contextMaxChars ==> r == c)
      && (|r| < |c| ==> TotalChars(c[|c| - |r| - 1..]) > config.contextMaxChars)
  {
    TrimmedHistorySuffix(m, config);
    TrimmedHistoryCount(m, config);
    TrimmedHistoryChars(m, config);
  }

  lemma TrimmedHistorySuffix(m: seq<ChatMessage>, config: Config)
    ensures var r := TrimmedHistory(m, config);
      |r| <= |m| && r == m[|m| - |r|..]
  {
    var c := CountTrim(m, config.contextMaxMessages);
    CountTrimProperties(m, config.contextMaxMessages);
    CharTrimSuffix(c, config.contextMaxChars);
    SuffixOfSuffix(m, c, CharTrim(c, config.contextMaxChars));
  }

  lemma TrimmedHistoryCount(m: seq<ChatMessage>, config: Config)
    ensures var r := TrimmedHistory(m, config);
      && |r| <= config.contextMaxMessages
      && (config.contextMaxMessages == 0 ==> r == [])
      && (m != [] && config.contextMaxMessages > 0 ==> r != [] && r[|r| - 1] == m[|m| - 1])
  {
    var c := CountTrim(m, config.contextMaxMessages);
    CountTrimProperties(m, config.contextMaxMessages);
    CharTrimSuffix(c, config.contextMaxChars);
  }

  lemma TrimmedHistoryChars(m: seq<ChatMessage>, config: Config)
    ensures var r := TrimmedHistory(m, config);
      var c := CountTrim(m, config.contextMaxMessages);
      && (TotalChars(r) > config.contextMaxChars <==> r != [] && |r[|r| - 1].text| > config.contextMaxChars)
      && (r != [] && |r[|r| - 1].text| > config.contextMaxChars ==> r == c)
      && (|r| < |c| ==> TotalChars(c[|c| - |r| - 1..]) > config.contextMaxChars)
  {
    var c := CountTrim(m, config.contextMaxMessages);
    var r := CharTrim(c, config.contextMaxChars);
    assert r == TrimmedHistory(m, config);
    CharTrimBudget(c, config.contextMaxChars);
  }

  lemma SuffixOfSuffix<T>(m: seq<T>, c: seq<T>, r: seq<T>)
    requires |c| <= |m| && c == m[|m| - |c|..]
    requires |r| <= |c| && r == c[|c| - |r|..]
    ensures r == m[|m| - |r|..]
  {
    assert c[|c| - |r|..] == m[|m| - |r|..];
  }

  /** A history already within both limits is kept as it is. */
  lemma TrimmedHistoryWithinLimits(m: seq<ChatMessage>, config: Config)
    requires |m| <= config.contextMaxMessages && TotalChars(m) <= config.contextMaxChars
    ensures TrimmedHistory(m, config) == m
  {
    assert m[0..] == m;
  }

  // ---------------------------------------------------------------- the view-level operations

  function History(conversations: map<string, seq<ChatMessage>>, chatId: string): seq<ChatMessage> {
    if chatId in conversations then conversations[chatId] else []
  }

  function Texts(m: seq<ChatMessage>): (r: seq<string>)
    ensures |r| == |m| && forall i :: 0 <= i < |m| ==> r[i] == m[i].text
  {
    seq(|m|, i requires 0 <= i < |m| => m[i].text)
  }

  /** `is_duplicate`: the chat's stored key equals the message's key. */
  predicate Duplicate(v: AppView, chatId: string, msgId: Option<string>, text: string, timestamp: nat) {
    chatId in v.lastMessageKeys && v.lastMessageKeys[chatId] == DedupeKey(msgId, text, timestamp)
  }

  /** `record_message`: store the key, append the message, trim that chat's history. */
  function Record(v: AppView, chatId: string, msg: ChatMessage): AppView {
    v.(lastMessageKeys := v.lastMessageKeys[chatId := DedupeKey(msg.msgId, msg.text, msg.timestamp)],
       conversations := v.conversations[chatId := TrimmedHistory(History(v.conversations, chatId) + [msg], v.config)])
  }

  /** `context_for_chat`: the chat's texts, oldest first; empty for an unknown chat. */
  function Context(v: AppView, chatId: string): seq<string> {
    Texts(History(v.conversations, chatId))
  }

  /** A chat never recorded has no duplicates; right after recording a message, the
      same message is a duplicate; recording touches only its own chat; and for a
      positive message limit the context then ends with the new text. */
  lemma RecordProperties(v: AppView, chatId: string, msg: ChatMessage, other: string)
    requires other != chatId
    ensures chatId !in v.lastMessageKeys ==> !Duplicate(v, chatId, msg.msgId, msg.text, msg.timestamp)
    ensures Duplicate(Record(v, chatId, msg), chatId, msg.msgId, msg.text, msg.timestamp)
    ensures History(Record(v, chatId, msg).conversations, other) == History(v.conversations, other)
    ensures (other in Record(v, chatId, msg).lastMessageKeys) == (other in v.lastMessageKeys)
    ensures other in v.lastMessageKeys ==> Record(v, chatId, msg).lastMessageKeys[other] == v.lastMessageKeys[other]
    ensures Record(v, chatId, msg).status == v.status && Record(v, chatId, msg).config == v.config
    ensures v.config.contextMaxMessages > 0 ==>
      var ctx := Context(Record(v, chatId, msg), chatId); ctx != [] && ctx[|ctx| - 1] == msg.text
    ensures |Context(Record(v, chatId, msg), chatId)| <= v.config.contextMaxMessages
  {
    var h := History(v.conversations, chatId) + [msg];
    TrimmedHistoryProperties(h, v.config);
  }

  lemma RecordHistory(v: AppView, chatId: string, msg: ChatMessage)
    ensures History(Record(v, chatId, msg).conversations, chatId)
         == TrimmedHistory(History(v.conversations, chatId) + [msg], v.config)
    ensures Record(v, chatId, msg).config == v.config
  {
  }

  /** Three four-character messages under a limit of two messages keep the last two. */
  lemma TwoMessageHistories(cfg: Config, m0: ChatMessage, m1: ChatMessage, m2: ChatMessage)
    requires cfg.contextMaxMessages == 2 && cfg.contextMaxChars == 2000
    requires |m0.text| == |m1.text| == |m2.text| == 4
    ensures TrimmedHistory([] + [m0], cfg) == [m0]
    ensures TrimmedHistory([m0] + [m1], cfg) == [m0, m1]
    ensures TrimmedHistory([m0, m1] + [m2], cfg) == [m1, m2]
  {
    assert [] + [m0] == [m0] && [m0] + [m1] == [m0, m1] && [m0, m1] + [m2] == [m0, m1, m2];
    assert TotalChars([m0]) == 4 by { assert [m0][1..] == []; }
    TrimmedHistoryWithinLimits([m0], cfg);
    assert TotalChars([m0, m1]) == 8 by { assert [m0, m1][1..] == [m1] && [m1][1..] == []; }
    TrimmedHistoryWithinLimits([m0, m1], cfg);
    assert CountTrim([m0, m1, m2], 2) == [m1, m2];
    assert TotalChars([m1, m2]) == 8 by { assert [m1, m2][1..] == [m2] && [m2][1..] == []; }
    assert [m1, m2][0..] == [m1, m2];
  }

  /** With a limit of two messages, recording "msg0", "msg1", "msg2" in one chat
      leaves the context ["msg1", "msg2"]. */
  lemma TwoMessageLimitExample(v: AppView)
    requires v.config == DefaultConfig().(contextMaxMessages := 2)
    requires v.conversations == map[]
    ensures var v3 := Record(Record(Record(v, "c1", ChatMessage("msg0", 0, None)),
                                    "c1", ChatMessage("msg1", 1, None)),
                             "c1", ChatMessage("msg2", 2, None));
      Context(v3, "c1") == ["msg1", "msg2"]
  {
    var m0, m1, m2 := ChatMessage("msg0", 0, None), ChatMessage("msg1", 1, None), ChatMessage("msg2", 2, None);
    TwoMessageHistories(v.config, m0, m1, m2);
    assert History(v.conversations, "c1") == [];
    var v1 := Record(v, "c1", m0);
    RecordHistory(v, "c1", m0);
    assert History(v1.conversations, "c1") == [m0] && v1.config == v.config;
    var v2 := Record(v1, "c1", m1);
    RecordHistory(v1, "c1", m1);
    assert History(v2.conversations, "c1") == [m0, m1] && v2.config == v.config;
    var v3 := Record(v2, "c1", m2);
    RecordHistory(v2, "c1", m2);
    assert History(v3.conversations, "c1") == [m1, m2];
  }

  // ---------------------------------------------------------------- status updates

  /** `update_state` / `set_runtime_state`: the runtime state and the last error. */
  function WithRuntime(v: AppView, runtime: RuntimeState, lastError: string): AppView {
    v.(status := v.status.(state := runtime, lastError := lastError))
  }

  /** `update_platform`. */
  function WithPlatform(v: AppView, platform: Platform): AppView {
    v.(status := v.status.(platform := platform))
  }

  /** `update_agent_connected`: a disconnection also puts the runtime in `Error`
      with the given message; a connection changes nothing else. */
  function WithConnected(v: AppView, connected: bool, lastError: string): AppView {
    if connected then v.(status := v.status.(agentConnected := true))
    else v.(status := v.status.(agentConnected := false, state := Error, lastError := lastError))
  }

  /** Status updates touch the status only, and each sets exactly the fields it names. */
  lemma StatusUpdates(v: AppView, runtime: RuntimeState, platform: Platform, connected: bool, lastError: string)
    ensures var w := WithRuntime(v, runtime, lastError);
      w.status == Status(runtime, v.status.platform, v.status.agentConnected, lastError)
      && w == v.(status := w.status)
    ensures var w := WithPlatform(v, platform);
      w.status == v.status.(platform := platform) && w == v.(status := w.status)
    ensures var w := WithConnected(v, connected, lastError);
      && w == v.(status := w.status)
      && w.status.agentConnected == connected && w.status.platform == v.status.platform
      && (connected ==> w.status.state == v.status.state && w.status.lastError == v.status.lastError)
      && (!connected ==> w.status.state == Error && w.status.lastError == lastError)
  {
  }

  // ---------------------------------------------------------------- the object

  class AppState {
    var config: Config
    var status: Status
    var agent: Option<AgentHandle>
    var listenTargets: seq<ListenTarget>
    var conversations: map<string, seq<ChatMessage>>
    var lastMessageKeys: map<string, string>

    function View(): AppView
      reads this
    {
      AppView(config, status, agent, listenTargets, conversations, lastMessageKeys)
    }

    /** `AppState::new`: the listen targets, passed explicitly, are normalised with
        the cap of 50; everything else starts empty. */
    constructor (config: Config, status: Status, targets: seq<ListenTarget>)
      ensures View() == AppView(config, status, None, ListenTargets.Capped(targets, ListenTargets.MaxListenTargets), map[], map[])
    {
      var normalized := ListenTargets.NormalizeListenTargets(targets, ListenTargets.MaxListenTargets);
      this.config := config;
      this.status := status;
      this.agent := None;
      this.listenTargets := normalized.OkOr([]);
      this.conversations := map[];
      this.lastMessageKeys := map[];
    }

    predicate IsDuplicate(chatId: string, msgId: Option<string>, text: string, timestamp: nat)
      reads this
    {
      Duplicate(View(), chatId, msgId, text, timestamp)
    }

    function ContextForChat(chatId: string): seq<string>
      reads this
    {
      Context(View(), chatId)
    }

    method UpdateState(runtime: RuntimeState, lastError: string)
      modifies this
      ensures View() == WithRuntime(old(View()), runtime, lastError)
    {
      status := status.(state := runtime, lastError := lastError);
    }

    method UpdatePlatform(platform: Platform)
      modifies this
      ensures View() == WithPlatform(old(View()), platform)
    {
      status := status.(platform := platform);
    }

    method UpdateAgentConnected(connected: bool, lastError: string)
      modifies this
      ensures View() == WithConnected(old(View()), connected, lastError)
    {
      status := status.(agentConnected := connected);
      if !connected {
        status := status.(state := Error, lastError := lastError);
      }
    }

    /** Store a started worker. */
    method SetAgent(handle: AgentHandle)
      modifies this
      ensures View() == old(View()).(agent := Some(handle))
    {
      agent := Some(handle);
    }

    method RecordMessage(chatId: string, message: ChatMessage)
      modifies this
      ensures View() == Record(old(View()), chatId, message)
    {
      lastMessageKeys := lastMessageKeys[chatId := DedupeKey(message.msgId, message.text, message.timestamp)];
      var messages := History(conversations, chatId);
      messages := messages + [message];
      var trimmed := TrimMessages(messages, config);
      conversations := conversations[chatId := trimmed];
    }
  }
}
