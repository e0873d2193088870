/**
 * The fixed accessibility paths to the WeChat session list, message list and
 * input box on macOS, two alternatives each, and the switch that allows a
 * dynamic scan of the window when none of them resolves.
 */
module StaticUiPaths {
  import opened Base
  import opened AxPath

  const SessionListPathA: seq<AxPathStep> := [
    Step(["AXSplitGroup"], 0, None),
    Step(["AXGroup"], 0, None),
    Step(["AXScrollArea"], 0, None),
    Step(["AXOutline", "AXTable", "AXList"], 0, None)
  ]

  const SessionListPathB: seq<AxPathStep> := [
    Step(["AXSplitGroup"], 0, None),
    Step(["AXGroup"], 0, None),
    Step(["AXOutline", "AXTable", "AXList"], 0, None)
  ]

  const MessageListPathA: seq<AxPathStep> := [
    Step(["AXSplitGroup"], 0, None),
    Step(["AXGroup"], 1, None),
    Step(["AXScrollArea"], 0, None),
    Step(["AXList", "AXTable", "AXOutline"], 0, None)
  ]

  const MessageListPathB: seq<AxPathStep> := [
    Step(["AXSplitGroup"], 0, None),
    Step(["AXGroup"], 1, None),
    Step(["AXList", "AXTable", "AXOutline"], 0, None)
  ]

  const InputPathA: seq<AxPathStep> := [
    Step(["AXSplitGroup"], 0, None),
    Step(["AXGroup"], 1, None),
    Step(["AXTextArea", "AXTextField"], 0, None)
  ]

  const InputPathB: seq<AxPathStep> := [
    Step(["AXSplitGroup"], 0, None),
    Step(["AXGroup"], 1, None),
    Step(["AXGroup"], 0, None),
    Step(["AXTextArea", "AXTextField"], 0, None)
  ]

  const SessionListPaths: seq<seq<AxPathStep>> := [SessionListPathA, SessionListPathB]
  const MessageListPaths: seq<seq<AxPathStep>> := [MessageListPathA, MessageListPathB]
  const InputPaths: seq<seq<AxPathStep>> := [InputPathA, InputPathB]

  /** All six paths. */
  function AllPaths(): (ps: seq<seq<AxPathStep>>)
    ensures |ps| == 6
  {
    SessionListPaths + MessageListPaths + InputPaths
  }

  /** Starts at the first AXSplitGroup child, has three or four steps, and
      names no title fragment. */
  predicate PathShaped(p: seq<AxPathStep>) {
    && 3 <= |p| <= 4
    && p[0] == AxPathStep(["AXSplitGroup"], None, 0)
    && forall s :: s in p ==> s.titleContains.None?
  }

  lemma SessionListPathsShaped()
    ensures PathShaped(SessionListPathA) && PathShaped(SessionListPathB)
  {
  }

  lemma MessageListPathsShaped()
    ensures PathShaped(MessageListPathA) && PathShaped(MessageListPathB)
  {
  }

  lemma InputPathsShaped()
    ensures PathShaped(InputPathA) && PathShaped(InputPathB)
  {
  }

  /** Each list holds two alternatives, A before B; every path starts at the
      first AXSplitGroup child of the window, names no title fragment in any
      step, and has three or four steps. */
  lemma StaticPathsShape()
    ensures SessionListPaths == [SessionListPathA, SessionListPathB]
    ensures MessageListPaths == [MessageListPathA, MessageListPathB]
    ensures InputPaths == [InputPathA, InputPathB]
    ensures forall p :: p in AllPaths() ==> 3 <= |p| <= 4 && p[0] == AxPathStep(["AXSplitGroup"], None, 0)
    ensures forall p, s :: p in AllPaths() && s in p ==> s.titleContains.None?
  {
    var all := AllPaths();
    assert all == [SessionListPathA, SessionListPathB, MessageListPathA, MessageListPathB, InputPathA, InputPathB];
    SessionListPathsShaped();
    MessageListPathsShaped();
    InputPathsShaped();
    assert forall p :: p in all ==> PathShaped(p);
  }

  /** The session and message alternatives B skip the scroll area that A goes
      through; input B goes through one more group than A. The session list is
      under the first group, the message list and input box under the second. */
  lemma AlternativesRelated()
    ensures SessionListPathB == SessionListPathA[..2] + SessionListPathA[3..]
    ensures MessageListPathB == MessageListPathA[..2] + MessageListPathA[3..]
    ensures InputPathB == InputPathA[..2] + [Step(["AXGroup"], 0, None)] + InputPathA[2..]
    ensures SessionListPathA[1].index == 0 && MessageListPathA[1].index == 1 && InputPathA[1].index == 1
  {
  }

  /** `allow_dynamic_scan`, given the value of WEREPLY_ALLOW_DYNAMIC_AX_SCAN
      (`None` when unset or not valid Unicode). */
  predicate AllowDynamicScan(env: Option<string>) {
    match env
    case None => true
    case Some(value) => value != "0"
  }

  /** The scan is allowed unless the variable is exactly "0": unset, "1" and any
      other value allow it. */
  lemma AllowDynamicScanSpec(env: Option<string>)
    ensures !AllowDynamicScan(env) <==> env == Some("0")
    ensures AllowDynamicScan(None) && AllowDynamicScan(Some("1"))
  {
  }
}
