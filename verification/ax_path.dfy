/**
 * Accessibility paths: a path is a list of steps, each naming the roles a child
 * may have, an optional title fragment, and which of the matching children to
 * descend into. The tree is abstract: a node type `T` with a function giving a
 * node's role and title and a function giving its children in order.
 */
module AxPath {
  import opened Base
  import opened Text

  datatype AxPathStep = AxPathStep(roles: seq<string>, titleContains: Option<string>, index: nat)

  /** What the path needs to know about a node; either attribute may be missing. */
  datatype AxNodeInfo = AxNodeInfo(role: Option<string>, title: Option<string>)

  /** `step`: the constructor with the arguments in the order the path tables use. */
  function Step(roles: seq<string>, index: nat, titleContains: Option<string>): (s: AxPathStep)
    ensures s.roles == roles && s.index == index && s.titleContains == titleContains
  {
    AxPathStep(roles, titleContains, index)
  }

  /** `matches_step`: a node without a role never matches; otherwise its role must
      be one of the step's roles and, when the step names a title fragment, the
      title (a missing one read as "") must contain it. */
  predicate MatchesStep(info: AxNodeInfo, step: AxPathStep) {
    match info.role
    case None => false
    case Some(role) =>
      if role !in step.roles then false
      else
        match step.titleContains
        case None => true
        case Some(sub) => Contains(info.title.GetOr(""), sub)
  }

  /** Without a title fragment the title plays no part; with one, a node whose
      title is missing matches only when the fragment is empty. */
  lemma MatchesStepTitle(role: Option<string>, t1: Option<string>, t2: Option<string>, step: AxPathStep)
    ensures step.titleContains.None? ==>
      MatchesStep(AxNodeInfo(role, t1), step) == MatchesStep(AxNodeInfo(role, t2), step)
    ensures step.titleContains.Some? && step.titleContains.value != [] ==>
      !MatchesStep(AxNodeInfo(role, None), step)
    ensures MatchesStep(AxNodeInfo(role, t1), step) ==> role.Some? && role.value in step.roles
  {
  }

  /** The children that match a step, in child order. */
  function Matching<T>(info: T -> AxNodeInfo, cs: seq<T>, step: AxPathStep): (ms: seq<T>)
    ensures |ms| <= |cs|
    ensures forall k :: 0 <= k < |ms| ==> ms[k] in cs && MatchesStep(info(ms[k]), step)
  {
    if cs == [] then []
    else
      var last := cs[|cs| - 1];
      Matching(info, cs[..|cs| - 1], step) + (if MatchesStep(info(last), step) then [last] else [])
  }

  /** Every matching child is kept: the k-th element of `Matching` is the first
      matching child after k other matching ones. */
  lemma {:induction false} MatchingNth<T>(info: T -> AxNodeInfo, cs: seq<T>, step: AxPathStep, k: nat)
    requires k < |Matching(info, cs, step)|
    ensures exists j :: 0 <= j < |cs| && cs[j] == Matching(info, cs, step)[k]
                        && MatchesStep(info(cs[j]), step) && |Matching(info, cs[..j], step)| == k
  {
    var init := cs[..|cs| - 1];
    var last := cs[|cs| - 1];
    if k < |Matching(info, init, step)| {
      MatchingNth(info, init, step, k);
      var j :| 0 <= j < |init| && init[j] == Matching(info, init, step)[k]
               && MatchesStep(info(init[j]), step) && |Matching(info, init[..j], step)| == k;
      assert cs[..j] == init[..j];
      assert cs[j] == init[j];
    } else {
      assert MatchesStep(info(last), step) && k == |Matching(info, init, step)|;
      assert cs[..|cs| - 1] == init;
    }
  }

  /** Resolution as a recursion on the steps: each step moves to the index-th
      matching child, and an index beyond the matches ends in `None`. */
  function Resolve<T>(info: T -> AxNodeInfo, children: T -> seq<T>, root: T, steps: seq<AxPathStep>): Option<T>
    decreases |steps|
  {
    if steps == [] then Some(root)
    else
      var ms := Matching(info, children(root), steps[0]);
      if steps[0].index >= |ms| then None
      else Resolve(info, children, ms[steps[0].index], steps[1..])
  }

  /** `node` lies exactly `depth` levels below `root`. */
  ghost predicate Below<T>(children: T -> seq<T>, root: T, node: T, depth: nat) {
    if depth == 0 then node == root
    else exists c :: c in children(root) && Below(children, c, node, depth - 1)
  }

  /** The node one step reaches. */
  method MatchAt<T>(info: T -> AxNodeInfo, cs: seq<T>, step: AxPathStep) returns (r: Option<T>)
    ensures var ms := Matching(info, cs, step);
      r == if step.index < |ms| then Some(ms[step.index]) else None
  {
    var matches: seq<T> := [];
    for j := 0 to |cs|
      invariant matches == Matching(info, cs[..j], step)
    {
      assert cs[..j + 1][..j] == cs[..j];
      if MatchesStep(info(cs[j]), step) {
        matches := matches + [cs[j]];
      }
    }
    assert cs[..|cs|] == cs;
    if step.index >= |matches| {
      return None;
    }
    return Some(matches[step.index]);
  }

  /** `resolve_path`. */
  method ResolvePath<T>(root: T, steps: seq<AxPathStep>, info: T -> AxNodeInfo, children: T -> seq<T>)
    returns (r: Option<T>)
    ensures r == Resolve(info, children, root, steps)
  {
    var current := root;
    for i := 0 to |steps|
      invariant Resolve(info, children, root, steps) == Resolve(info, children, current, steps[i..])
    {
      var next := MatchAt(info, children(current), steps[i]);
      assert steps[i..][1..] == steps[i + 1..];
      if next.None? {
        return None;
      }
      current := next.value;
    }
    return Some(current);
  }

  /** With no steps the root itself is found. */
  lemma ResolveEmpty<T>(info: T -> AxNodeInfo, children: T -> seq<T>, root: T)
    ensures Resolve(info, children, root, []) == Some(root)
  {
  }

  /** One step more: the path resolves through the node the first steps reach. */
  lemma {:induction false} ResolveSnoc<T>(info: T -> AxNodeInfo, children: T -> seq<T>, root: T,
                                          steps: seq<AxPathStep>, last: AxPathStep)
    ensures Resolve(info, children, root, steps + [last]) ==
      match Resolve(info, children, root, steps)
      case None => None
      case Some(n) =>
        var ms := Matching(info, children(n), last);
        if last.index < |ms| then Some(ms[last.index]) else None
    decreases |steps|
  {
    if steps == [] {
      assert [] + [last] == [last];
      assert [last][1..] == [];
    } else {
      assert (steps + [last])[0] == steps[0];
      assert (steps + [last])[1..] == steps[1..] + [last];
      var ms := Matching(info, children(root), steps[0]);
      if steps[0].index < |ms| {
        ResolveSnoc(info, children, ms[steps[0].index], steps[1..], last);
      }
    }
  }

  /** An index at or beyond the number of matching children fails the path,
      whatever steps follow. */
  lemma ResolveOutOfRange<T>(info: T -> AxNodeInfo, children: T -> seq<T>, root: T,
                             step: AxPathStep, rest: seq<AxPathStep>)
    requires step.index >= |Matching(info, children(root), step)|
    ensures Resolve(info, children, root, [step] + rest) == None
  {
    assert ([step] + rest)[0] == step;
  }

  /** A found node lies exactly as many levels below the root as there are
      steps, and it matches the last step. */
  lemma {:induction false} ResolveDepth<T>(info: T -> AxNodeInfo, children: T -> seq<T>, root: T, steps: seq<AxPathStep>)
    requires Resolve(info, children, root, steps).Some?
    ensures Below(children, root, Resolve(info, children, root, steps).value, |steps|)
    ensures steps != [] ==> MatchesStep(info(Resolve(info, children, root, steps).value), steps[|steps| - 1])
    decreases |steps|
  {
    if steps != [] {
      var ms := Matching(info, children(root), steps[0]);
      var c := ms[steps[0].index];
      assert c in children(root) && MatchesStep(info(c), steps[0]);
      ResolveDepth(info, children, c, steps[1..]);
      var n := Resolve(info, children, root, steps).value;
      assert Below(children, c, n, |steps| - 1);
      if |steps| > 1 {
        assert steps[1..][|steps[1..]| - 1] == steps[|steps| - 1];
      }
    }
  }

  // ---------------------------------------------------------------- examples

  /** The node type of the unit tests: every node has a role and a title. */
  datatype TestNode = TestNode(role: string, title: string, children: seq<TestNode>)

  function TestInfo(n: TestNode): AxNodeInfo { AxNodeInfo(Some(n.role), Some(n.title)) }
  function TestChildren(n: TestNode): seq<TestNode> { n.children }

  /** Of two AXGroup children, index 1 picks the second. */
  lemma SecondMatchByRole()
    ensures var left := TestNode("AXGroup", "left", []);
      var right := TestNode("AXGroup", "right", []);
      var root := TestNode("AXWindow", "", [left, right]);
      Resolve(TestInfo, TestChildren, root, [Step(["AXGroup"], 1, None)]) == Some(right)
  {
    var left := TestNode("AXGroup", "left", []);
    var right := TestNode("AXGroup", "right", []);
    var cs := [left, right];
    assert cs[..1] == [left];
    assert [left][..0] == [];
    assert Matching(TestInfo, cs, Step(["AXGroup"], 1, None)) == [left, right];
  }

  /** A string shorter than the fragment cannot contain it. */
  lemma ShorterNotContains(s: string, sub: string)
    requires |s| < |sub|
    ensures !Contains(s, sub)
    decreases |s|
  {
  }

  /** Matching over two children keeps each one that matches, in order. */
  lemma MatchingTwo<T>(info: T -> AxNodeInfo, a: T, b: T, step: AxPathStep)
    ensures Matching(info, [a, b], step)
      == (if MatchesStep(info(a), step) then [a] else []) + (if MatchesStep(info(b), step) then [b] else [])
  {
    assert [a, b][..1] == [a];
    assert [a][..0] == [];
  }

  /** A one-step path picks the matching child at the step's index, if any. */
  lemma ResolveOneStep<T>(info: T -> AxNodeInfo, children: T -> seq<T>, root: T, step: AxPathStep)
    ensures var ms := Matching(info, children(root), step);
      Resolve(info, children, root, [step]) == if step.index < |ms| then Some(ms[step.index]) else None
  {
    assert [step][0] == step && [step][1..] == [];
  }

  lemma MessagesInTitles()
    ensures !Contains("ChatList", "Messages") && Contains("MessagesPane", "Messages")
  {
    ShorterNotContains("hatList", "Messages");
    assert "ChatList"[1..] == "hatList";
    assert !("Messages" <= "ChatList") by { assert "ChatList"[0] != "Messages"[0]; }
    assert "Messages" <= "MessagesPane";
  }

  /** The title fragment "Messages" skips a "ChatList" group and picks the
      "MessagesPane" one. */
  lemma TitleContainsExample()
    ensures var chats := TestNode("AXGroup", "ChatList", []);
      var messages := TestNode("AXGroup", "MessagesPane", []);
      Resolve(TestInfo, TestChildren, TestNode("AXWindow", "", [chats, messages]),
              [Step(["AXGroup"], 0, Some("Messages"))]) == Some(messages)
  {
    var chats := TestNode("AXGroup", "ChatList", []);
    var messages := TestNode("AXGroup", "MessagesPane", []);
    var step := Step(["AXGroup"], 0, Some("Messages"));
    MessagesInTitles();
    assert !MatchesStep(TestInfo(chats), step) && MatchesStep(TestInfo(messages), step);
    MatchingTwo(TestInfo, chats, messages, step);
    ResolveOneStep(TestInfo, TestChildren, TestNode("AXWindow", "", [chats, messages]), step);
  }

  /** Index 2 among a single AXGroup child finds nothing. */
  lemma OutOfRangeExample()
    ensures var only := TestNode("AXGroup", "only", []);
      Resolve(TestInfo, TestChildren, TestNode("AXWindow", "", [only]), [Step(["AXGroup"], 2, None)]) == None
  {
    var only := TestNode("AXGroup", "only", []);
    assert [only][..0] == [];
  }
}
