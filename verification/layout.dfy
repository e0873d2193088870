/**
 * Finding the navigation bar, the session pane and the chat pane of the WeChat
 * main window in its UI Automation tree by control type and name. The tree is
 * abstract: a control type `T` with functions giving a control's type name,
 * its raw `Name` attribute, its children and its parent. A failing or missing
 * `GetChildren` is no children, a failing or missing `GetParentControl` no
 * parent, a missing or non-string `Name` the empty name.
 */
module Layout {
  import opened Base
  import opened Text

  datatype Tree<!T> = Tree(typeName: T -> string, rawName: T -> Option<string>,
                          children: T -> seq<T>, parent: T -> Option<T>)

  datatype LayoutLabels = LayoutLabels(
    sessionListNames: set<string>,
    sessionSearchNames: set<string>,
    messageListNames: set<string>,
    sendButtonNames: set<string>,
    navigationButtonNames: set<string>)

  datatype MainControls<T> = MainControls(navigation: Option<T>, session: Option<T>, chat: Option<T>)

  const DefaultMaxDepth: nat := 14
  const SubtreeScanDepth: nat := 6
  const AncestorLevels: nat := 10

  /** `_control_name`: a string name is stripped; anything else is "". */
  function ControlName<T>(tr: Tree<T>, c: T): string {
    match tr.rawName(c)
    case Some(s) => Strip(s)
    case None => ""
  }

  // ---------------------------------------------------------------- traversal

  /** The controls `_iter_controls` yields below `node` at `depth`: the node,
      then, unless the depth limit is reached, each child's walk in order. */
  function Walk<T>(tr: Tree<T>, node: T, depth: nat, maxDepth: nat): (r: seq<(T, nat)>)
    requires depth <= maxDepth
    ensures r != [] && r[0] == (node, depth)
    decreases maxDepth - depth + 1, 0
  {
    [(node, depth)] + (if depth == maxDepth then [] else WalkAll(tr, tr.children(node), depth + 1, maxDepth))
  }

  function WalkAll<T>(tr: Tree<T>, cs: seq<T>, depth: nat, maxDepth: nat): seq<(T, nat)>
    requires 0 < depth <= maxDepth
    decreases maxDepth - depth + 1, |cs|
  {
    if cs == [] then [] else Walk(tr, cs[0], depth, maxDepth) + WalkAll(tr, cs[1..], depth, maxDepth)
  }

  /** `_iter_controls` (the explicit-stack path): pre-order from the control at
      depth 0 down to `maxDepth`. */
  function IterControls<T>(tr: Tree<T>, control: T, maxDepth: nat): seq<(T, nat)> {
    Walk(tr, control, 0, maxDepth)
  }

  /** What the stack still holds, in the order it will come out. */
  function Pending<T>(tr: Tree<T>, stack: seq<(T, nat)>, maxDepth: nat): seq<(T, nat)>
    requires forall k :: 0 <= k < |stack| ==> stack[k].1 <= maxDepth
  {
    if stack == [] then []
    else
      var top := stack[|stack| - 1];
      Walk(tr, top.0, top.1, maxDepth) + Pending(tr, stack[..|stack| - 1], maxDepth)
  }

  lemma PendingPush<T>(tr: Tree<T>, stack: seq<(T, nat)>, item: (T, nat), maxDepth: nat)
    requires forall k :: 0 <= k < |stack| ==> stack[k].1 <= maxDepth
    requires item.1 <= maxDepth
    ensures Pending(tr, stack + [item], maxDepth) == Walk(tr, item.0, item.1, maxDepth) + Pending(tr, stack, maxDepth)
  {
    assert (stack + [item])[..|stack|] == stack;
  }

  /** `for child in reversed(children): stack.append((child, depth))`: the
      children come off the stack first to last, each walked in full. */
  method PushChildren<T>(tr: Tree<T>, stack: seq<(T, nat)>, children: seq<T>, depth: nat, maxDepth: nat)
    returns (pushed: seq<(T, nat)>)
    requires forall m :: 0 <= m < |stack| ==> stack[m].1 <= maxDepth
    requires 0 < depth <= maxDepth
    ensures forall m :: 0 <= m < |pushed| ==> pushed[m].1 <= maxDepth
    ensures Pending(tr, pushed, maxDepth) == WalkAll(tr, children, depth, maxDepth) + Pending(tr, stack, maxDepth)
  {
    pushed := stack;
    var k := |children|;
    assert children[k..] == [];
    while k > 0
      invariant 0 <= k <= |children|
      invariant forall m :: 0 <= m < |pushed| ==> pushed[m].1 <= maxDepth
      invariant Pending(tr, pushed, maxDepth) == WalkAll(tr, children[k..], depth, maxDepth) + Pending(tr, stack, maxDepth)
    {
      k := k - 1;
      PushChildStep(tr, stack, pushed, children, k, depth, maxDepth);
      pushed := pushed + [(children[k], depth)];
    }
    assert children[0..] == children;
  }

  /** Pushing the `k`-th child puts its walk in front of those of the later children. */
  lemma PushChildStep<T>(tr: Tree<T>, stack: seq<(T, nat)>, pushed: seq<(T, nat)>, children: seq<T>,
                         k: nat, depth: nat, maxDepth: nat)
    requires k < |children| && 0 < depth <= maxDepth
    requires forall m :: 0 <= m < |stack| ==> stack[m].1 <= maxDepth
    requires forall m :: 0 <= m < |pushed| ==> pushed[m].1 <= maxDepth
    requires Pending(tr, pushed, maxDepth) == WalkAll(tr, children[k + 1..], depth, maxDepth) + Pending(tr, stack, maxDepth)
    ensures Pending(tr, pushed + [(children[k], depth)], maxDepth)
         == WalkAll(tr, children[k..], depth, maxDepth) + Pending(tr, stack, maxDepth)
  {
    PendingPush(tr, pushed, (children[k], depth), maxDepth);
    assert children[k..][0] == children[k] && children[k..][1..] == children[k + 1..];
    var w := Walk(tr, children[k], depth, maxDepth);
    var later := WalkAll(tr, children[k + 1..], depth, maxDepth);
    assert WalkAll(tr, children[k..], depth, maxDepth) == w + later;
    SeqAssoc3(w, later, Pending(tr, stack, maxDepth));
  }

  /** Popping the top control: it comes out first, then (below the limit) its
      children's walks, then the rest of the stack. */
  lemma PendingPop<T>(tr: Tree<T>, stack: seq<(T, nat)>, maxDepth: nat)
    requires stack != []
    requires forall k :: 0 <= k < |stack| ==> stack[k].1 <= maxDepth
    ensures var (node, depth) := stack[|stack| - 1];
      Pending(tr, stack, maxDepth) ==
        [(node, depth)]
        + ((if depth == maxDepth then [] else WalkAll(tr, tr.children(node), depth + 1, maxDepth))
           + Pending(tr, stack[..|stack| - 1], maxDepth))
  {
  }

  /** One turn of the loop of `_iter_controls`: pop the top control and, below
      the depth limit, push its children. */
  method PopAndPush<T>(tr: Tree<T>, stack: seq<(T, nat)>, maxDepth: nat) returns (top: (T, nat), next: seq<(T, nat)>)
    requires stack != []
    requires forall k :: 0 <= k < |stack| ==> stack[k].1 <= maxDepth
    ensures forall k :: 0 <= k < |next| ==> next[k].1 <= maxDepth
    ensures [top] + Pending(tr, next, maxDepth) == Pending(tr, stack, maxDepth)
  {
    top := stack[|stack| - 1];
    var rest := stack[..|stack| - 1];
    PendingPop(tr, stack, maxDepth);
    if top.1 >= maxDepth {
      next := rest;
    } else {
      next := PushChildren(tr, rest, tr.children(top.0), top.1 + 1, maxDepth);
    }
  }

  /** `_iter_controls`: pop a control, yield it, and below the depth limit push
      its children so that the first child comes out next. */
  method IterControlsStack<T>(tr: Tree<T>, control: T, maxDepth: nat) returns (items: seq<(T, nat)>)
    ensures items == IterControls(tr, control, maxDepth)
  {
    ghost var full := IterControls(tr, control, maxDepth);
    var stack: seq<(T, nat)> := [(control, 0)];
    items := [];
    assert Pending(tr, stack, maxDepth) == full by {
      assert stack[..0] == [];
    }
    while stack != []
      invariant forall k :: 0 <= k < |stack| ==> stack[k].1 <= maxDepth
      invariant items + Pending(tr, stack, maxDepth) == full
      decreases |full| - |items|
    {
      var top;
      top, stack := PopAndPush(tr, stack, maxDepth);
      items := items + [top];
    }
  }

  /** `node` lies exactly `depth` levels below `root`. */
  ghost predicate Below<T>(tr: Tree<T>, root: T, node: T, depth: nat) {
    if depth == 0 then node == root
    else exists c :: c in tr.children(root) && Below(tr, c, node, depth - 1)
  }

  /** `item` lies as many levels below `root` as its depth exceeds `depth`, and
      no deeper than the limit. */
  ghost predicate PlacedBelow<T>(tr: Tree<T>, root: T, depth: nat, maxDepth: nat, item: (T, nat)) {
    depth <= item.1 <= maxDepth && Below(tr, root, item.0, item.1 - depth)
  }

  /** The same, below one of the controls `cs`. */
  ghost predicate PlacedUnder<T>(tr: Tree<T>, cs: seq<T>, depth: nat, maxDepth: nat, item: (T, nat)) {
    exists c :: c in cs && PlacedBelow(tr, c, depth, maxDepth, item)
  }

  lemma BelowChild<T>(tr: Tree<T>, node: T, c: T, n: T, d: nat)
    requires c in tr.children(node) && Below(tr, c, n, d)
    ensures Below(tr, node, n, d + 1)
  {
  }

  /** Every control a walk yields lies as many levels below the start as its
      reported depth says, and no deeper than the limit. */
  lemma {:induction false} WalkSound<T>(tr: Tree<T>, node: T, depth: nat, maxDepth: nat)
    requires depth <= maxDepth
    ensures forall k :: 0 <= k < |Walk(tr, node, depth, maxDepth)| ==>
      PlacedBelow(tr, node, depth, maxDepth, Walk(tr, node, depth, maxDepth)[k])
  {
    forall k | 0 <= k < |Walk(tr, node, depth, maxDepth)|
      ensures PlacedBelow(tr, node, depth, maxDepth, Walk(tr, node, depth, maxDepth)[k])
    {
      WalkSoundAt(tr, node, depth, maxDepth, k);
    }
  }

  lemma {:induction false} WalkSoundAt<T>(tr: Tree<T>, node: T, depth: nat, maxDepth: nat, k: nat)
    requires depth <= maxDepth && k < |Walk(tr, node, depth, maxDepth)|
    ensures PlacedBelow(tr, node, depth, maxDepth, Walk(tr, node, depth, maxDepth)[k])
    decreases maxDepth - depth + 1, 0
  {
    var w := Walk(tr, node, depth, maxDepth);
    if k > 0 {
      var below := WalkAll(tr, tr.children(node), depth + 1, maxDepth);
      assert w == [(node, depth)] + below;
      var item: (T, nat) := below[k - 1];
      assert w[k] == item;
      WalkAllSoundAt(tr, tr.children(node), depth + 1, maxDepth, k - 1);
      var c :| c in tr.children(node) && PlacedBelow(tr, c, depth + 1, maxDepth, item);
      BelowChild(tr, node, c, item.0, item.1 - depth - 1);
    }
  }

  lemma {:induction false} WalkAllSoundAt<T>(tr: Tree<T>, cs: seq<T>, depth: nat, maxDepth: nat, k: nat)
    requires 0 < depth <= maxDepth && k < |WalkAll(tr, cs, depth, maxDepth)|
    ensures PlacedUnder(tr, cs, depth, maxDepth, WalkAll(tr, cs, depth, maxDepth)[k])
    decreases maxDepth - depth + 1, |cs|
  {
    var a := Walk(tr, cs[0], depth, maxDepth);
    var b := WalkAll(tr, cs[1..], depth, maxDepth);
    assert WalkAll(tr, cs, depth, maxDepth) == a + b;
    if k < |a| {
      assert (a + b)[k] == a[k];
      WalkSoundAt(tr, cs[0], depth, maxDepth, k);
      assert cs[0] in cs;
    } else {
      var item: (T, nat) := b[k - |a|];
      assert (a + b)[k] == item;
      WalkAllSoundAt(tr, cs[1..], depth, maxDepth, k - |a|);
      var c :| c in cs[1..] && PlacedBelow(tr, c, depth, maxDepth, item);
      assert c in cs;
    }
  }

  /** Every child of a control reached above the limit is reached too, one
      level deeper: nothing within the limit is skipped. */
  lemma {:induction false} WalkComplete<T>(tr: Tree<T>, node: T, depth: nat, maxDepth: nat, k: nat, c: T)
    requires depth <= maxDepth
    requires k < |Walk(tr, node, depth, maxDepth)| && Walk(tr, node, depth, maxDepth)[k].1 < maxDepth
    requires c in tr.children(Walk(tr, node, depth, maxDepth)[k].0)
    ensures (c, Walk(tr, node, depth, maxDepth)[k].1 + 1) in Walk(tr, node, depth, maxDepth)
    decreases maxDepth - depth + 1, 0
  {
    var w := Walk(tr, node, depth, maxDepth);
    if k == 0 {
      assert w[0] == (node, depth);
      WalkAllHas(tr, tr.children(node), depth + 1, maxDepth, c);
    } else {
      assert depth < maxDepth;
      WalkAllComplete(tr, tr.children(node), depth + 1, maxDepth, k - 1, c);
    }
  }

  lemma {:induction false} WalkAllHas<T>(tr: Tree<T>, cs: seq<T>, depth: nat, maxDepth: nat, c: T)
    requires 0 < depth <= maxDepth && c in cs
    ensures (c, depth) in WalkAll(tr, cs, depth, maxDepth)
    decreases |cs|
  {
    if cs[0] != c {
      WalkAllHas(tr, cs[1..], depth, maxDepth, c);
    }
  }

  lemma {:induction false} WalkAllComplete<T>(tr: Tree<T>, cs: seq<T>, depth: nat, maxDepth: nat, k: nat, c: T)
    requires 0 < depth <= maxDepth
    requires k < |WalkAll(tr, cs, depth, maxDepth)| && WalkAll(tr, cs, depth, maxDepth)[k].1 < maxDepth
    requires c in tr.children(WalkAll(tr, cs, depth, maxDepth)[k].0)
    ensures (c, WalkAll(tr, cs, depth, maxDepth)[k].1 + 1) in WalkAll(tr, cs, depth, maxDepth)
    decreases maxDepth - depth + 1, |cs|
  {
    var a := Walk(tr, cs[0], depth, maxDepth);
    var b := WalkAll(tr, cs[1..], depth, maxDepth);
    assert WalkAll(tr, cs, depth, maxDepth) == a + b;
    if k < |a| {
      WalkComplete(tr, cs[0], depth, maxDepth, k, c);
    } else {
      WalkAllComplete(tr, cs[1..], depth, maxDepth, k - |a|, c);
    }
  }

  /** The walk starts with the control itself at depth 0, and a limit of 0
      yields only that control. */
  lemma IterControlsStart<T>(tr: Tree<T>, control: T, maxDepth: nat)
    ensures IterControls(tr, control, maxDepth)[0] == (control, 0)
    ensures maxDepth == 0 ==> IterControls(tr, control, maxDepth) == [(control, 0)]
  {
  }

  // ---------------------------------------------------------------- searches

  /** The first control of a walk satisfying `pred`. */
  function FirstWhere<T>(items: seq<(T, nat)>, pred: T -> bool): (r: Option<T>)
    ensures r.None? <==> forall k :: 0 <= k < |items| ==> !pred(items[k].0)
    ensures r.Some? ==> exists k :: 0 <= k < |items| && items[k].0 == r.value && pred(r.value)
                                    && forall j :: 0 <= j < k ==> !pred(items[j].0)
  {
    if items == [] then None
    else if pred(items[0].0) then Some(items[0].0)
    else
      var r := FirstWhere(items[1..], pred);
      assert forall k :: 1 <= k < |items| ==> items[1..][k - 1] == items[k];
      r
  }

  /** How many controls of a walk satisfy `pred`. */
  function CountWhere<T>(items: seq<(T, nat)>, pred: T -> bool): (n: nat)
    ensures n <= |items|
  {
    if items == [] then 0 else (if pred(items[0].0) then 1 else 0) + CountWhere(items[1..], pred)
  }

  /** `_find_first_control_matching`. */
  function FindFirstControlMatching<T>(tr: Tree<T>, root: T, pred: T -> bool, maxDepth: nat): Option<T> {
    FirstWhere(IterControls(tr, root, maxDepth), pred)
  }

  method FindFirstControlMatchingLoop<T>(tr: Tree<T>, root: T, pred: T -> bool, maxDepth: nat) returns (r: Option<T>)
    ensures r == FindFirstControlMatching(tr, root, pred, maxDepth)
  {
    var items := IterControlsStack(tr, root, maxDepth);
    for k := 0 to |items|
      invariant FirstWhere(items, pred) == FirstWhere(items[k..], pred)
    {
      if pred(items[k].0) {
        return Some(items[k].0);
      }
      assert items[k..][1..] == items[k + 1..];
    }
    return None;
  }

  /** `_subtree_has`. */
  predicate SubtreeHas<T>(tr: Tree<T>, control: T, pred: T -> bool, maxDepth: nat) {
    FindFirstControlMatching(tr, control, pred, maxDepth).Some?
  }

  /** `{name for name in names if name}`. */
  function NonEmptyNames(names: set<string>): (ns: set<string>)
    ensures forall n :: n in ns <==> n in names && n != ""
  {
    set n | n in names && n != ""
  }

  predicate TypeAndName<T>(tr: Tree<T>, controlType: string, names: set<string>, c: T) {
    tr.typeName(c) == controlType && ControlName(tr, c) in names
  }

  function OfType<T>(tr: Tree<T>, controlType: string): T -> bool {
    c => tr.typeName(c) == controlType
  }

  function Named<T>(tr: Tree<T>, controlType: string, names: set<string>): T -> bool {
    c => TypeAndName(tr, controlType, names, c)
  }

  /** `_has_descendant_by_type`, within the subtree scan depth. */
  predicate HasDescendantByType<T>(tr: Tree<T>, control: T, controlType: string) {
    SubtreeHas(tr, control, OfType(tr, controlType), SubtreeScanDepth)
  }

  /** `_has_descendant_by_type_and_name`. */
  predicate HasDescendantByTypeAndName<T>(tr: Tree<T>, control: T, controlType: string, names: set<string>) {
    var ns := NonEmptyNames(names);
    ns != {} && SubtreeHas(tr, control, Named(tr, controlType, ns), SubtreeScanDepth)
  }

  /** `_count_controls_by_name`. */
  function CountControlsByName<T>(tr: Tree<T>, control: T, controlType: string, names: set<string>): nat {
    var ns := NonEmptyNames(names);
    if ns == {} then 0
    else CountWhere(IterControls(tr, control, SubtreeScanDepth), Named(tr, controlType, ns))
  }

  method CountControlsByNameLoop<T>(tr: Tree<T>, control: T, controlType: string, names: set<string>) returns (count: nat)
    ensures count == CountControlsByName(tr, control, controlType, names)
  {
    var ns := set n | n in names && n != "";
    if ns == {} {
      return 0;
    }
    var items := IterControlsStack(tr, control, SubtreeScanDepth);
    ghost var pred := Named(tr, controlType, ns);
    count := 0;
    for k := 0 to |items|
      invariant count + CountWhere(items[k..], pred) == CountWhere(items, pred)
    {
      assert items[k..][1..] == items[k + 1..];
      if tr.typeName(items[k].0) == controlType && ControlName(tr, items[k].0) in ns {
        count := count + 1;
      }
    }
  }

  /** `_find_first_by_type_and_name`. */
  function FindFirstByTypeAndName<T>(tr: Tree<T>, root: T, controlType: string, names: set<string>, maxDepth: nat): Option<T> {
    var ns := NonEmptyNames(names);
    if ns == {} then None
    else FindFirstControlMatching(tr, root, Named(tr, controlType, ns), maxDepth)
  }

  /** Empty names never match: with no non-empty name the named searches find
      nothing and count nothing; otherwise a control found has the type and a
      listed non-empty name. */
  lemma NamedSearches<T>(tr: Tree<T>, root: T, controlType: string, names: set<string>, maxDepth: nat)
    ensures NonEmptyNames(names) == {} ==>
      && FindFirstByTypeAndName(tr, root, controlType, names, maxDepth) == None
      && !HasDescendantByTypeAndName(tr, root, controlType, names)
      && CountControlsByName(tr, root, controlType, names) == 0
    ensures var r := FindFirstByTypeAndName(tr, root, controlType, names, maxDepth);
      r.Some? ==> tr.typeName(r.value) == controlType && ControlName(tr, r.value) in names && ControlName(tr, r.value) != ""
  {
  }

  // ---------------------------------------------------------------- ancestors

  /** The control `k` parent links above `c`, if the chain is that long. */
  function AncestorAt<T>(tr: Tree<T>, c: T, k: nat): Option<T> {
    if k == 0 then Some(c)
    else
      match tr.parent(c)
      case None => None
      case Some(p) => AncestorAt(tr, p, k - 1)
  }

  /** `_find_ancestor_with` as a recursion on the levels left. */
  function AncestorWith<T>(tr: Tree<T>, control: Option<T>, pred: T -> bool, levels: nat): Option<T>
    decreases levels
  {
    if control.None? || levels == 0 then None
    else if pred(control.value) then control
    else AncestorWith(tr, tr.parent(control.value), pred, levels - 1)
  }

  /** The first `k` controls of the parent chain exist and fail `pred`. */
  predicate NoneBefore<T>(tr: Tree<T>, c: T, pred: T -> bool, k: nat) {
    forall j :: 0 <= j < k ==> AncestorAt(tr, c, j).Some? && !pred(AncestorAt(tr, c, j).value)
  }

  /** The control itself is checked first, then its parents upwards, at most
      `levels` controls in all: the result is the nearest one satisfying the
      predicate within that many, and `None` if there is none. */

  lemma {:induction false} AncestorWithSpec<T>(tr: Tree<T>, c: T, pred: T -> bool, levels: nat)
    ensures var r := AncestorWith(tr, Some(c), pred, levels);
      r.Some? ==> exists k :: 0 <= k < levels && AncestorAt(tr, c, k) == r && pred(r.value) && NoneBefore(tr, c, pred, k)
    ensures AncestorWith(tr, Some(c), pred, levels).None? <==>
      forall k :: 0 <= k < levels && AncestorAt(tr, c, k).Some? ==> !pred(AncestorAt(tr, c, k).value)
    decreases levels
  {
    var r := AncestorWith(tr, Some(c), pred, levels);
    assert AncestorAt(tr, c, 0) == Some(c);
    if levels == 0 {
    } else if pred(c) {
      assert r == Some(c) && NoneBefore(tr, c, pred, 0);
      assert exists k :: 0 <= k < levels && AncestorAt(tr, c, k).Some? && pred(AncestorAt(tr, c, k).value) by {
        assert AncestorAt(tr, c, 0).Some? && pred(AncestorAt(tr, c, 0).value);
      }
    } else if tr.parent(c).None? {
      assert r == AncestorWith(tr, tr.parent(c), pred, levels - 1);
      assert forall k :: 1 <= k ==> AncestorAt(tr, c, k) == None;
    } else {
      var p := tr.parent(c).value;
      assert tr.parent(c) == Some(p);
      assert r == AncestorWith(tr, Some(p), pred, levels - 1);
      AncestorWithSpec(tr, p, pred, levels - 1);
      if r.Some? {
        var k :| 0 <= k < levels - 1 && AncestorAt(tr, p, k) == r && pred(r.value) && NoneBefore(tr, p, pred, k);
        assert AncestorAt(tr, c, k + 1) == r;
        forall j | 0 <= j < k + 1
          ensures AncestorAt(tr, c, j).Some? && !pred(AncestorAt(tr, c, j).value)
        {
          if j > 0 { assert AncestorAt(tr, c, j) == AncestorAt(tr, p, j - 1); }
        }
        assert NoneBefore(tr, c, pred, k + 1);
        assert exists i :: 0 <= i < levels && AncestorAt(tr, c, i).Some? && pred(AncestorAt(tr, c, i).value) by {
          assert AncestorAt(tr, c, k + 1).Some? && pred(AncestorAt(tr, c, k + 1).value);
        }
      } else {
        forall k | 0 <= k < levels && AncestorAt(tr, c, k).Some?
          ensures !pred(AncestorAt(tr, c, k).value)
        {
          if k > 0 {
            assert AncestorAt(tr, c, k) == AncestorAt(tr, p, k - 1);
            assert 0 <= k - 1 < levels - 1 && AncestorAt(tr, p, k - 1).Some?;
          }
        }
      }
    }
  }

  /** `_find_ancestor_with`: a loop over the parent chain. */
  method FindAncestorWith<T>(tr: Tree<T>, control: T, pred: T -> bool, maxLevels: nat) returns (r: Option<T>)
    ensures r == AncestorWith(tr, Some(control), pred, maxLevels)
  {
    var current: Option<T> := Some(control);
    var steps := 0;
    while current.Some? && steps < maxLevels
      invariant steps <= maxLevels
      invariant AncestorWith(tr, current, pred, maxLevels - steps) == AncestorWith(tr, Some(control), pred, maxLevels)
      decreases maxLevels - steps
    {
      if pred(current.value) {
        return current;
      }
      current := tr.parent(current.value);
      steps := steps + 1;
    }
    return None;
  }

  // ---------------------------------------------------------------- containers

  /** `_looks_like_session_container`: a named search box and a named session
      list within the subtree scan depth. */
  predicate LooksLikeSessionContainer<T>(tr: Tree<T>, control: T, labels: LayoutLabels) {
    && HasDescendantByTypeAndName(tr, control, "EditControl", labels.sessionSearchNames)
    && HasDescendantByTypeAndName(tr, control, "ListControl", labels.sessionListNames)
  }

  /** `_looks_like_chat_container`: an edit box of any name, and a named
      message list or a named send button. */
  predicate LooksLikeChatContainer<T>(tr: Tree<T>, control: T, labels: LayoutLabels) {
    var hasEdit := HasDescendantByType(tr, control, "EditControl");
    var hasMessageList := HasDescendantByTypeAndName(tr, control, "ListControl", labels.messageListNames);
    var hasSend := HasDescendantByTypeAndName(tr, control, "ButtonControl", labels.sendButtonNames);
    hasEdit && (hasMessageList || hasSend)
  }

  function SessionLooks<T>(tr: Tree<T>, labels: LayoutLabels): T -> bool {
    c => LooksLikeSessionContainer(tr, c, labels)
  }

  function ChatLooks<T>(tr: Tree<T>, labels: LayoutLabels): T -> bool {
    c => LooksLikeChatContainer(tr, c, labels)
  }

  /** The search shared by the session and chat panes: the nearest ancestor
      (within ten levels) of each anchor in turn that satisfies `looks`, and
      failing all, the first control in the whole walk that does. */
  function FromAnchors<T>(tr: Tree<T>, root: T, anchors: seq<Option<T>>, looks: T -> bool, maxDepth: nat): Option<T> {
    if anchors == [] then FindFirstControlMatching(tr, root, looks, maxDepth)
    else
      match AncestorWith(tr, anchors[0], looks, AncestorLevels)
      case Some(c) => Some(c)
      case None => FromAnchors(tr, root, anchors[1..], looks, maxDepth)
  }

  /** Whatever the anchors find satisfies `looks`. */
  lemma {:induction false} FromAnchorsSound<T>(tr: Tree<T>, root: T, anchors: seq<Option<T>>, looks: T -> bool, maxDepth: nat)
    ensures var r := FromAnchors(tr, root, anchors, looks, maxDepth);
      r.Some? ==> looks(r.value)
  {
    if anchors != [] {
      var a := AncestorWith(tr, anchors[0], looks, AncestorLevels);
      if anchors[0].Some? {
        AncestorWithSpec(tr, anchors[0].value, looks, AncestorLevels);
      }
      if a.None? {
        FromAnchorsSound(tr, root, anchors[1..], looks, maxDepth);
      }
    }
  }

  /** `_find_session_container`: anchored at the first named session list, then
      at the first named search box. */
  function FindSessionContainer<T>(tr: Tree<T>, root: T, labels: LayoutLabels, maxDepth: nat): Option<T> {
    var anchors := [FindFirstByTypeAndName(tr, root, "ListControl", labels.sessionListNames, maxDepth),
                    FindFirstByTypeAndName(tr, root, "EditControl", labels.sessionSearchNames, maxDepth)];
    FromAnchors(tr, root, anchors, SessionLooks(tr, labels), maxDepth)
  }

  /** `_find_chat_container`: anchored at the first named message list, then at
      the first named send button. */
  function FindChatContainer<T>(tr: Tree<T>, root: T, labels: LayoutLabels, maxDepth: nat): Option<T> {
    var anchors := [FindFirstByTypeAndName(tr, root, "ListControl", labels.messageListNames, maxDepth),
                    FindFirstByTypeAndName(tr, root, "ButtonControl", labels.sendButtonNames, maxDepth)];
    FromAnchors(tr, root, anchors, ChatLooks(tr, labels), maxDepth)
  }

  /** With two anchors: the first anchor's ancestor, else the second's, else
      the whole-tree scan. */
  lemma FromTwoAnchors<T>(tr: Tree<T>, root: T, first: Option<T>, second: Option<T>, looks: T -> bool, maxDepth: nat)
    ensures var a := AncestorWith(tr, first, looks, AncestorLevels);
      var b := AncestorWith(tr, second, looks, AncestorLevels);
      FromAnchors(tr, root, [first, second], looks, maxDepth) ==
        if a.Some? then a else if b.Some? then b else FindFirstControlMatching(tr, root, looks, maxDepth)
  {
    assert [first, second][1..] == [second];
    assert [second][1..] == [];
    assert FromAnchors(tr, root, [], looks, maxDepth) == FindFirstControlMatching(tr, root, looks, maxDepth);
    var b := AncestorWith(tr, second, looks, AncestorLevels);
    assert FromAnchors(tr, root, [second], looks, maxDepth) ==
      if b.Some? then b else FromAnchors(tr, root, [], looks, maxDepth);
  }

  /** The order in which the session pane is looked for: the ancestor of the
      session list, else that of the search box, else a whole-tree scan. */
  lemma SessionDiscoveryOrder<T>(tr: Tree<T>, root: T, labels: LayoutLabels, maxDepth: nat)
    ensures var a := AncestorWith(tr, FindFirstByTypeAndName(tr, root, "ListControl", labels.sessionListNames, maxDepth),
                                  SessionLooks(tr, labels), AncestorLevels);
      var b := AncestorWith(tr, FindFirstByTypeAndName(tr, root, "EditControl", labels.sessionSearchNames, maxDepth),
                            SessionLooks(tr, labels), AncestorLevels);
      FindSessionContainer(tr, root, labels, maxDepth) ==
        if a.Some? then a else if b.Some? then b else FindFirstControlMatching(tr, root, SessionLooks(tr, labels), maxDepth)
  {
    FromTwoAnchors(tr, root, FindFirstByTypeAndName(tr, root, "ListControl", labels.sessionListNames, maxDepth),
                   FindFirstByTypeAndName(tr, root, "EditControl", labels.sessionSearchNames, maxDepth),
                   SessionLooks(tr, labels), maxDepth);
  }

  /** A session pane found looks like one. */
  lemma SessionContainerSound<T>(tr: Tree<T>, root: T, labels: LayoutLabels, maxDepth: nat)
    ensures var r := FindSessionContainer(tr, root, labels, maxDepth);
      r.Some? ==> LooksLikeSessionContainer(tr, r.value, labels)
  {
    var anchors := [FindFirstByTypeAndName(tr, root, "ListControl", labels.sessionListNames, maxDepth),
                    FindFirstByTypeAndName(tr, root, "EditControl", labels.sessionSearchNames, maxDepth)];
    FromAnchorsSound(tr, root, anchors, SessionLooks(tr, labels), maxDepth);
  }

  /** A chat pane found looks like one. */
  lemma ChatContainerSound<T>(tr: Tree<T>, root: T, labels: LayoutLabels, maxDepth: nat)
    ensures var r := FindChatContainer(tr, root, labels, maxDepth);
      r.Some? ==> LooksLikeChatContainer(tr, r.value, labels)
  {
    var anchors := [FindFirstByTypeAndName(tr, root, "ListControl", labels.messageListNames, maxDepth),
                    FindFirstByTypeAndName(tr, root, "ButtonControl", labels.sendButtonNames, maxDepth)];
    FromAnchorsSound(tr, root, anchors, ChatLooks(tr, labels), maxDepth);
  }

  /** At least three named navigation buttons within the subtree scan depth. */
  predicate HasNavButtons<T>(tr: Tree<T>, c: T, labels: LayoutLabels) {
    CountControlsByName(tr, c, "ButtonControl", labels.navigationButtonNames) >= 3
  }

  function NavLooks<T>(tr: Tree<T>, labels: LayoutLabels): T -> bool {
    c => HasNavButtons(tr, c, labels)
  }

  /** `_find_navigation_container`. */
  function FindNavigationContainer<T>(tr: Tree<T>, root: T, labels: LayoutLabels, maxDepth: nat): Option<T> {
    var looks := NavLooks(tr, labels);
    match FindFirstByTypeAndName(tr, root, "ButtonControl", labels.navigationButtonNames, maxDepth)
    case Some(button) =>
      (match AncestorWith(tr, Some(button), looks, AncestorLevels)
       case Some(c) => Some(c)
       case None => tr.parent(button))
    case None => FindFirstControlMatching(tr, root, looks, maxDepth)
  }

  /** The navigation bar is the nearest ancestor of the first named navigation
      button holding three named ones, else that button's parent; without such
      a button, the first control in the walk holding three. */
  lemma NavigationDiscovery<T>(tr: Tree<T>, root: T, labels: LayoutLabels, maxDepth: nat)
    ensures var button := FindFirstByTypeAndName(tr, root, "ButtonControl", labels.navigationButtonNames, maxDepth);
      var r := FindNavigationContainer(tr, root, labels, maxDepth);
      && (button.None? ==> (r.Some? ==> HasNavButtons(tr, r.value, labels)))
      && (button.Some? && r.Some? && !HasNavButtons(tr, r.value, labels) ==> r == tr.parent(button.value))
      && (button.Some? && r != tr.parent(button.value) ==>
            r.Some? && HasNavButtons(tr, r.value, labels)
            && exists k :: 0 <= k < AncestorLevels && AncestorAt(tr, button.value, k) == r)
  {
    var looks := NavLooks(tr, labels);
    var button := FindFirstByTypeAndName(tr, root, "ButtonControl", labels.navigationButtonNames, maxDepth);
    if button.Some? {
      AncestorWithSpec(tr, button.value, looks, AncestorLevels);
    }
  }

  /** `discover_main_controls`: each pane searched from the root with the
      default depth limit. */
  function DiscoverMainControls<T>(tr: Tree<T>, root: T, labels: LayoutLabels): MainControls<T> {
    MainControls(FindNavigationContainer(tr, root, labels, DefaultMaxDepth),
                 FindSessionContainer(tr, root, labels, DefaultMaxDepth),
                 FindChatContainer(tr, root, labels, DefaultMaxDepth))
  }

  // ---------------------------------------------------------------- examples

  /** The window of the discovery unit test, its controls numbered in
      pre-order: 0 the window; 1 the navigation pane with buttons 2, 3, 4; 5 the
      session pane with search box 6 and session list 7; 8 the chat pane with
      message list 9, an unnamed edit box 10 and send button 11. */
  function SampleType(n: nat): string {
    if n == 0 then "WindowControl"
    else if n == 1 || n == 5 || n == 8 then "PaneControl"
    else if n == 6 || n == 10 then "EditControl"
    else if n == 7 || n == 9 then "ListControl"
    else if 2 <= n <= 4 || n == 11 then "ButtonControl"
    else ""
  }

  function SampleLabel(n: nat): string {
    if n == 2 then "聊天"
    else if n == 3 then "通讯录"
    else if n == 4 then "收藏"
    else if n == 6 then "搜索"
    else if n == 7 then "会话"
    else if n == 9 then "消息"
    else if n == 11 then "发送(S)"
    else ""
  }

  function SampleName(n: nat): Option<string> { Some(SampleLabel(n)) }

  function SampleChildren(n: nat): seq<nat> {
    if n == 0 then [1, 5, 8]
    else if n == 1 then [2, 3, 4]
    else if n == 5 then [6, 7]
    else if n == 8 then [9, 10, 11]
    else []
  }

  function SampleParent(n: nat): Option<nat> {
    if n == 1 || n == 5 || n == 8 then Some(0)
    else if 2 <= n <= 4 then Some(1)
    else if n == 6 || n == 7 then Some(5)
    else if 9 <= n <= 11 then Some(8)
    else None
  }

  const Sample: Tree<nat> := Tree(SampleType, SampleName, SampleChildren, SampleParent)

  /** The parents the tests walk up to. */
  lemma SampleParents()
    ensures Sample.parent(2) == Some(1) && Sample.parent(7) == Some(5) && Sample.parent(9) == Some(8)
  {
    assert SampleParent(2) == Some(1);
    assert SampleParent(7) == Some(5);
    assert SampleParent(9) == Some(8);
  }

  const SampleLabels: LayoutLabels := LayoutLabels({"会话", "折叠的群聊"}, {"搜索"}, {"消息"}, {"发送", "发送(S)"}, {"聊天", "通讯录", "收藏"})

  /** The test's names carry no surrounding whitespace. */
  lemma SampleNames(n: nat)
    ensures ControlName(Sample, n) == SampleLabel(n)
  {
    var t := SampleLabel(n);
    assert t == [] || (!IsSpace(Python, t[0]) && !IsSpace(Python, t[|t| - 1]));
    TrimFixesUntrimmed(Python, t);
  }

  lemma LeafWalk(n: nat, depth: nat, maxDepth: nat)
    requires depth <= maxDepth && SampleChildren(n) == []
    ensures Walk(Sample, n, depth, maxDepth) == [(n, depth)]
  {
  }

  lemma {:induction false} LeavesWalk(cs: seq<nat>, depth: nat, maxDepth: nat)
    requires 0 < depth <= maxDepth && forall k :: 0 <= k < |cs| ==> SampleChildren(cs[k]) == []
    ensures WalkAll(Sample, cs, depth, maxDepth) == seq(|cs|, k requires 0 <= k < |cs| => (cs[k], depth))
    decreases |cs|
  {
    if cs != [] {
      LeafWalk(cs[0], depth, maxDepth);
      LeavesWalk(cs[1..], depth, maxDepth);
    }
  }

  /** A pane's walk: the pane, then its childless children one level deeper. */
  lemma PaneWalk(n: nat, depth: nat, maxDepth: nat)
    requires depth < maxDepth && (n == 1 || n == 5 || n == 8)
    ensures Walk(Sample, n, depth, maxDepth) ==
      [(n, depth)] + seq(|SampleChildren(n)|, k requires 0 <= k < |SampleChildren(n)| => (SampleChildren(n)[k], depth + 1))
  {
    LeavesWalk(SampleChildren(n), depth + 1, maxDepth);
  }

  /** The whole window, walked with the default depth limit: the window, then
      each pane followed by its controls. */
  const SampleOrder: seq<(nat, nat)> :=
    [(0, 0)] + [(1, 1), (2, 2), (3, 2), (4, 2)] + [(5, 1), (6, 2), (7, 2)] + [(8, 1), (9, 2), (10, 2), (11, 2)]

  lemma NavWalk()
    ensures Walk(Sample, 1, 1, DefaultMaxDepth) == [(1, 1), (2, 2), (3, 2), (4, 2)]
  {
    PaneWalk(1, 1, DefaultMaxDepth);
  }

  lemma SessionWalk()
    ensures Walk(Sample, 5, 1, DefaultMaxDepth) == [(5, 1), (6, 2), (7, 2)]
  {
    PaneWalk(5, 1, DefaultMaxDepth);
  }

  lemma ChatWalk()
    ensures Walk(Sample, 8, 1, DefaultMaxDepth) == [(8, 1), (9, 2), (10, 2), (11, 2)]
  {
    PaneWalk(8, 1, DefaultMaxDepth);
  }

  /** Walking three siblings walks each in turn. */
  lemma WalkThree<T>(tr: Tree<T>, a: T, b: T, c: T, depth: nat, maxDepth: nat)
    requires 0 < depth <= maxDepth
    ensures WalkAll(tr, [a, b, c], depth, maxDepth)
         == Walk(tr, a, depth, maxDepth) + Walk(tr, b, depth, maxDepth) + Walk(tr, c, depth, maxDepth)
  {
    var cs := [a, b, c];
    assert cs[1..] == [b, c] && cs[1..][1..] == [c] && cs[1..][1..][1..] == [];
    var wa, wb, wc := Walk(tr, a, depth, maxDepth), Walk(tr, b, depth, maxDepth), Walk(tr, c, depth, maxDepth);
    assert WalkAll(tr, [c], depth, maxDepth) == wc + [];
    assert WalkAll(tr, [b, c], depth, maxDepth) == wb + (wc + []);
    assert WalkAll(tr, cs, depth, maxDepth) == wa + (wb + (wc + []));
    assert wa + (wb + (wc + [])) == wa + wb + wc;
  }

  lemma SampleFullWalk()
    ensures IterControls(Sample, 0, DefaultMaxDepth) == SampleOrder
  {
    var m := DefaultMaxDepth;
    NavWalk();
    SessionWalk();
    ChatWalk();
    WalkThree(Sample, 1, 5, 8, 1, m);
    assert SampleChildren(0) == [1, 5, 8];
    assert IterControls(Sample, 0, m) == [(0, 0)] + WalkAll(Sample, [1, 5, 8], 1, m);
  }

  /** The walk lists the controls in their numbering. */
  lemma SampleOrderAt(j: nat)
    requires j < |SampleOrder|
    ensures SampleOrder[j].0 == j
  {
  }

  /** The first match of a walk is at `i` when it matches there and nowhere before. */
  lemma FirstWhereAt<T>(items: seq<(T, nat)>, pred: T -> bool, i: nat)
    requires i < |items| && pred(items[i].0)
    requires forall j :: 0 <= j < i ==> !pred(items[j].0)
    ensures FirstWhere(items, pred) == Some(items[i].0)
  {
    var r := FirstWhere(items, pred);
    var k :| 0 <= k < |items| && items[k].0 == r.value && pred(r.value) && forall j :: 0 <= j < k ==> !pred(items[j].0);
    assert k == i;
  }

  /** In the sample walk the first control satisfying `pred` is `i` when `i`
      does and no lower-numbered control does. */
  lemma FirstInSample(pred: nat -> bool, i: nat)
    requires i < |SampleOrder| && pred(i)
    requires forall j :: 0 <= j < i ==> !pred(j)
    ensures FirstWhere(SampleOrder, pred) == Some(i)
  {
    SampleOrderAt(i);
    forall j | 0 <= j < i
      ensures !pred(SampleOrder[j].0)
    {
      SampleOrderAt(j);
    }
    FirstWhereAt(SampleOrder, pred, i);
  }

  /** Which sample controls have each type. */
  lemma SampleTypes(n: nat)
    ensures SampleType(n) == "ListControl" <==> n == 7 || n == 9
    ensures SampleType(n) == "EditControl" <==> n == 6 || n == 10
    ensures SampleType(n) == "ButtonControl" <==> 2 <= n <= 4 || n == 11
  {
    var t := SampleType(n);
    if t == [] { return; }
    assert t[0] == 'L' <==> n == 7 || n == 9;
    assert t[0] == 'E' <==> n == 6 || n == 10;
    assert t[0] == 'B' <==> 2 <= n <= 4 || n == 11;
  }

  /** A sample control matches a named search by its type and its label. */
  lemma SampleNamed(n: nat, controlType: string, ns: set<string>)
    ensures Named(Sample, controlType, ns)(n) <==> SampleType(n) == controlType && SampleLabel(n) in ns
  {
    SampleNames(n);
  }

  /** A control failing the predicate under a parent satisfying it. */
  lemma ParentWith<T>(tr: Tree<T>, c: T, p: T, pred: T -> bool, levels: nat)
    requires levels >= 2 && !pred(c) && tr.parent(c) == Some(p) && pred(p)
    ensures AncestorWith(tr, Some(c), pred, levels) == Some(p)
  {
    assert AncestorWith(tr, Some(p), pred, levels - 1) == Some(p);
  }

  /** A pane's subtree scan: the pane and its children. */
  lemma SamplePaneScan(n: nat)
    requires n == 1 || n == 5 || n == 8
    ensures var cs := SampleChildren(n);
      IterControls(Sample, n, SubtreeScanDepth) == [(n, 0)] + seq(|cs|, k requires 0 <= k < |cs| => (cs[k], 1))
  {
    PaneWalk(n, 0, SubtreeScanDepth);
  }

  lemma NavScan()
    ensures IterControls(Sample, 1, SubtreeScanDepth) == [(1, 0), (2, 1), (3, 1), (4, 1)]
  {
    SamplePaneScan(1);
  }

  lemma SessionScan()
    ensures IterControls(Sample, 5, SubtreeScanDepth) == [(5, 0), (6, 1), (7, 1)]
  {
    SamplePaneScan(5);
  }

  lemma ChatScan()
    ensures IterControls(Sample, 8, SubtreeScanDepth) == [(8, 0), (9, 1), (10, 1), (11, 1)]
  {
    SamplePaneScan(8);
  }

  // The session pane.

  /** The session list is the first control named as one. */
  lemma SampleSessionList()
    ensures FindFirstByTypeAndName(Sample, 0, "ListControl", SampleLabels.sessionListNames, DefaultMaxDepth) == Some(7)
  {
    var ns := NonEmptyNames(SampleLabels.sessionListNames);
    var named := Named(Sample, "ListControl", ns);
    forall j | 0 <= j < 7
      ensures !named(j)
    {
      SampleNamed(j, "ListControl", ns);
      SampleTypes(j);
    }
    assert named(7) by {
      SampleNamed(7, "ListControl", ns);
      SampleTypes(7);
      assert "会话" in ns;
    }
    SampleFullWalk();
    FirstInSample(named, 7);
  }

  /** The session list alone does not look like the session pane. */
  lemma SampleSessionListAlone()
    ensures !LooksLikeSessionContainer(Sample, 7, SampleLabels)
  {
    LeafWalk(7, 0, SubtreeScanDepth);
    var search := NonEmptyNames(SampleLabels.sessionSearchNames);
    assert !Named(Sample, "EditControl", search)(7) by {
      SampleNamed(7, "EditControl", search);
      SampleTypes(7);
    }
    var w: seq<(nat, nat)> := [(7, 0)];
    assert FirstWhere(w, Named(Sample, "EditControl", search)) == None;
  }

  /** A walk whose first match is its second control. */
  lemma FirstSecond<T>(w: seq<(T, nat)>, pred: T -> bool)
    requires |w| >= 2 && !pred(w[0].0) && pred(w[1].0)
    ensures FirstWhere(w, pred) == Some(w[1].0)
  {
    assert w[1..][0] == w[1];
  }

  /** A walk whose first match is its third control. */
  lemma FirstThird<T>(w: seq<(T, nat)>, pred: T -> bool)
    requires |w| >= 3 && !pred(w[0].0) && !pred(w[1].0) && pred(w[2].0)
    ensures FirstWhere(w, pred) == Some(w[2].0)
  {
    assert w[1..][1..][0] == w[2];
  }

  lemma SessionSearchNamed()
    ensures var named := Named(Sample, "EditControl", NonEmptyNames(SampleLabels.sessionSearchNames));
      !named(5) && named(6)
  {
    var search := NonEmptyNames(SampleLabels.sessionSearchNames);
    assert "搜索" in search;
    SampleNamed(5, "EditControl", search);
    SampleNamed(6, "EditControl", search);
    SampleTypes(5);
    SampleTypes(6);
  }

  /** The session pane holds the search box ... */
  lemma SampleSessionHasSearch()
    ensures HasDescendantByTypeAndName(Sample, 5, "EditControl", SampleLabels.sessionSearchNames)
  {
    SessionScan();
    SessionSearchNamed();
    FirstSecond(IterControls(Sample, 5, SubtreeScanDepth),
                Named(Sample, "EditControl", NonEmptyNames(SampleLabels.sessionSearchNames)));
  }

  lemma SessionListNamed()
    ensures var named := Named(Sample, "ListControl", NonEmptyNames(SampleLabels.sessionListNames));
      !named(5) && !named(6) && named(7)
  {
    var lists := NonEmptyNames(SampleLabels.sessionListNames);
    assert "会话" in lists;
    SampleNamed(5, "ListControl", lists);
    SampleNamed(6, "ListControl", lists);
    SampleNamed(7, "ListControl", lists);
    SampleTypes(5);
    SampleTypes(6);
    SampleTypes(7);
  }

  /** ... and the session list. */
  lemma SampleSessionHasList()
    ensures HasDescendantByTypeAndName(Sample, 5, "ListControl", SampleLabels.sessionListNames)
  {
    SessionScan();
    SessionListNamed();
    FirstThird(IterControls(Sample, 5, SubtreeScanDepth),
               Named(Sample, "ListControl", NonEmptyNames(SampleLabels.sessionListNames)));
  }

  lemma SampleSessionLooks()
    ensures SessionLooks(Sample, SampleLabels)(5) && !SessionLooks(Sample, SampleLabels)(7)
  {
    SampleSessionListAlone();
    SampleSessionHasSearch();
    SampleSessionHasList();
  }

  /** From the session list, the nearest ancestor that looks like the session
      pane is the session pane. */
  lemma SampleSessionAncestor()
    ensures AncestorWith(Sample, Some(7), SessionLooks(Sample, SampleLabels), AncestorLevels) == Some(5)
  {
    SampleSessionLooks();
    SampleParents();
    ParentWith(Sample, 7, 5, SessionLooks(Sample, SampleLabels), AncestorLevels);
  }

  /** `test_discovers_main_controls_from_tree`, the session pane: found as the
      nearest ancestor of the session list that looks like one. */
  lemma SampleSessionContainer()
    ensures FindSessionContainer(Sample, 0, SampleLabels, DefaultMaxDepth) == Some(5)
  {
    SampleSessionList();
    SampleSessionAncestor();
    SessionDiscoveryOrder(Sample, 0, SampleLabels, DefaultMaxDepth);
  }

  // The chat pane.

  /** The message list is the first control named as one; the session list
      before it has another name. */
  lemma SampleMessageList()
    ensures FindFirstByTypeAndName(Sample, 0, "ListControl", SampleLabels.messageListNames, DefaultMaxDepth) == Some(9)
  {
    var ns := NonEmptyNames(SampleLabels.messageListNames);
    var named := Named(Sample, "ListControl", ns);
    forall j | 0 <= j < 9
      ensures !named(j)
    {
      SampleNamed(j, "ListControl", ns);
      SampleTypes(j);
      if j == 7 {
        assert SampleLabel(7) !in ns by {
          assert SampleLabel(7)[0] != "消息"[0];
        }
      }
    }
    assert named(9) by {
      SampleNamed(9, "ListControl", ns);
      SampleTypes(9);
      assert "消息" in ns;
    }
    SampleFullWalk();
    FirstInSample(named, 9);
  }

  /** The message list alone holds no edit box. */
  lemma SampleMessageListAlone()
    ensures !LooksLikeChatContainer(Sample, 9, SampleLabels)
  {
    LeafWalk(9, 0, SubtreeScanDepth);
    assert !OfType(Sample, "EditControl")(9) by {
      SampleTypes(9);
    }
    var w: seq<(nat, nat)> := [(9, 0)];
    assert FirstWhere(w, OfType(Sample, "EditControl")) == None;
  }

  lemma ChatEditTyped()
    ensures var edit := OfType(Sample, "EditControl");
      !edit(8) && !edit(9) && edit(10)
  {
    SampleTypes(8);
    SampleTypes(9);
    SampleTypes(10);
  }

  /** The chat pane holds an edit box ... */
  lemma SampleChatHasEdit()
    ensures HasDescendantByType(Sample, 8, "EditControl")
  {
    ChatScan();
    ChatEditTyped();
    FirstThird(IterControls(Sample, 8, SubtreeScanDepth), OfType(Sample, "EditControl"));
  }

  lemma ChatListNamed()
    ensures var named := Named(Sample, "ListControl", NonEmptyNames(SampleLabels.messageListNames));
      !named(8) && named(9)
  {
    var lists := NonEmptyNames(SampleLabels.messageListNames);
    assert "消息" in lists;
    SampleNamed(8, "ListControl", lists);
    SampleNamed(9, "ListControl", lists);
    SampleTypes(8);
    SampleTypes(9);
  }

  /** ... and the message list. */
  lemma SampleChatHasMessages()
    ensures HasDescendantByTypeAndName(Sample, 8, "ListControl", SampleLabels.messageListNames)
  {
    ChatScan();
    ChatListNamed();
    FirstSecond(IterControls(Sample, 8, SubtreeScanDepth),
                Named(Sample, "ListControl", NonEmptyNames(SampleLabels.messageListNames)));
  }

  lemma SampleChatLooks()
    ensures ChatLooks(Sample, SampleLabels)(8) && !ChatLooks(Sample, SampleLabels)(9)
  {
    SampleMessageListAlone();
    SampleChatHasEdit();
    SampleChatHasMessages();
  }

  lemma SampleChatAncestor()
    ensures AncestorWith(Sample, Some(9), ChatLooks(Sample, SampleLabels), AncestorLevels) == Some(8)
  {
    SampleChatLooks();
    SampleParents();
    ParentWith(Sample, 9, 8, ChatLooks(Sample, SampleLabels), AncestorLevels);
  }

  /** `test_discovers_main_controls_from_tree`, the chat pane: the nearest
      ancestor of the message list holding an edit box. */
  lemma SampleChatContainer()
    ensures FindChatContainer(Sample, 0, SampleLabels, DefaultMaxDepth) == Some(8)
  {
    SampleMessageList();
    SampleChatAncestor();
    var second := FindFirstByTypeAndName(Sample, 0, "ButtonControl", SampleLabels.sendButtonNames, DefaultMaxDepth);
    FromTwoAnchors(Sample, 0, Some(9), second, ChatLooks(Sample, SampleLabels), DefaultMaxDepth);
  }

  // The navigation bar.

  /** The first navigation button is the first control named as one. */
  lemma SampleNavButton()
    ensures FindFirstByTypeAndName(Sample, 0, "ButtonControl", SampleLabels.navigationButtonNames, DefaultMaxDepth) == Some(2)
  {
    var ns := NonEmptyNames(SampleLabels.navigationButtonNames);
    var named := Named(Sample, "ButtonControl", ns);
    forall j | 0 <= j < 2
      ensures !named(j)
    {
      SampleNamed(j, "ButtonControl", ns);
      SampleTypes(j);
    }
    assert named(2) by {
      SampleNamed(2, "ButtonControl", ns);
      SampleTypes(2);
      assert "聊天" in ns;
    }
    SampleFullWalk();
    FirstInSample(named, 2);
  }

  /** A button by itself counts one navigation button ... */
  lemma SampleNavButtonAlone()
    ensures !HasNavButtons(Sample, 2, SampleLabels)
  {
    LeafWalk(2, 0, SubtreeScanDepth);
    var ns := NonEmptyNames(SampleLabels.navigationButtonNames);
    var w: seq<(nat, nat)> := [(2, 0)];
    assert CountWhere(w, Named(Sample, "ButtonControl", ns)) <= 1;
  }

  /** The three buttons carry navigation names. */
  lemma SampleNavButtonsNamed()
    ensures var named := Named(Sample, "ButtonControl", NonEmptyNames(SampleLabels.navigationButtonNames));
      !named(1) && named(2) && named(3) && named(4)
  {
    var ns := NonEmptyNames(SampleLabels.navigationButtonNames);
    assert "聊天" in ns && "通讯录" in ns && "收藏" in ns;
    forall j | 1 <= j <= 4
      ensures Named(Sample, "ButtonControl", ns)(j) <==> j != 1
    {
      SampleNamed(j, "ButtonControl", ns);
      SampleTypes(j);
    }
  }

  /** Counting over a four-control walk. */
  lemma CountFour<T>(w: seq<(T, nat)>, pred: T -> bool)
    requires |w| == 4
    ensures CountWhere(w, pred) == (if pred(w[0].0) then 1 else 0) + (if pred(w[1].0) then 1 else 0)
                                 + (if pred(w[2].0) then 1 else 0) + (if pred(w[3].0) then 1 else 0)
  {
    assert w[1..][1..][1..][1..] == [];
  }

  /** ... and the navigation pane three. */
  lemma SampleNavPane()
    ensures HasNavButtons(Sample, 1, SampleLabels)
  {
    NavScan();
    SampleNavButtonsNamed();
    var named := Named(Sample, "ButtonControl", NonEmptyNames(SampleLabels.navigationButtonNames));
    CountFour(IterControls(Sample, 1, SubtreeScanDepth), named);
  }

  /** `test_discovers_main_controls_from_tree`, the navigation pane: the nearest
      ancestor of the first navigation button holding three of them. */
  lemma SampleNavigationContainer()
    ensures FindNavigationContainer(Sample, 0, SampleLabels, DefaultMaxDepth) == Some(1)
  {
    SampleNavButton();
    SampleNavButtonAlone();
    SampleNavPane();
    SampleParents();
    ParentWith(Sample, 2, 1, NavLooks(Sample, SampleLabels), AncestorLevels);
  }

  /** `test_discovers_main_controls_from_tree`: the three panes of the sample
      window are found. */
  lemma SampleDiscovery()
    ensures DiscoverMainControls(Sample, 0, SampleLabels) == MainControls(Some(1), Some(5), Some(8))
  {
    SampleNavigationContainer();
    SampleSessionContainer();
    SampleChatContainer();
  }

  /** An unnamed control never matches a named search. */
  lemma UnnamedNeverMatches<T>(tr: Tree<T>, c: T, controlType: string, names: set<string>)
    requires ControlName(tr, c) == ""
    ensures !Named(tr, controlType, NonEmptyNames(names))(c)
  {
  }

  /** The pane of `test_session_container_rejects_send_button`: 0 a pane holding
      an unnamed edit box 1, an unnamed list 2 and a send button 3. */
  function UnnamedType(n: nat): string {
    if n == 0 then "PaneControl"
    else if n == 1 then "EditControl"
    else if n == 2 then "ListControl"
    else "ButtonControl"
  }

  function UnnamedName(n: nat): Option<string> {
    if n == 3 then Some("发送") else Some("")
  }

  function UnnamedChildren(n: nat): seq<nat> {
    if n == 0 then [1, 2, 3] else []
  }

  function UnnamedParent(n: nat): Option<nat> {
    if 1 <= n <= 3 then Some(0) else None
  }

  const UnnamedPane: Tree<nat> := Tree(UnnamedType, UnnamedName, UnnamedChildren, UnnamedParent)

  /** `test_session_container_rejects_send_button`: an unnamed edit box is no
      search box, so a pane without named controls is not a session pane. */
  lemma UnnamedPaneRejected()
    ensures !LooksLikeSessionContainer(UnnamedPane, 0, SampleLabels)
  {
    var m := SubtreeScanDepth;
    assert WalkAll(UnnamedPane, [3], 1, m) == [(3, 1)];
    assert [1, 2, 3][1..] == [2, 3] && [2, 3][1..] == [3];
    assert WalkAll(UnnamedPane, [2, 3], 1, m) == [(2, 1), (3, 1)];
    var w := IterControls(UnnamedPane, 0, m);
    assert w == [(0, 0), (1, 1), (2, 1), (3, 1)];
    var search := NonEmptyNames(SampleLabels.sessionSearchNames);
    var pred := Named(UnnamedPane, "EditControl", search);
    assert "PaneControl"[0] != 'E' && "ListControl"[0] != 'E' && "ButtonControl"[0] != 'E';
    assert ControlName(UnnamedPane, 1) == "";
    UnnamedNeverMatches(UnnamedPane, 1, "EditControl", SampleLabels.sessionSearchNames);
    assert forall k :: 0 <= k < |w| ==> !pred(w[k].0);
  }
}
