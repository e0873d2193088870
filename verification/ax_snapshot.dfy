/**
 * A depth-limited JSON snapshot of an accessibility tree, written to disk when
 * the UI paths are learned. The tree is abstract: a node type `T`, a function
 * giving a node's attributes and a function giving its children in order.
 */
module AxSnapshot {
  import opened Base
  import opened Json

  /** A frame; the coordinates are finite `f64` values, here exact reals. */
  datatype AxSnapshotRect = AxSnapshotRect(x: real, y: real, width: real, height: real)

  datatype AxSnapshotInfo = AxSnapshotInfo(
    role: Option<string>,
    title: Option<string>,
    value: Option<string>,
    frame: Option<AxSnapshotRect>,
    enabled: Option<bool>,
    focused: Option<bool>)

  /** The keys of every snapshot node. */
  const NodeKeys: set<string> := {"role", "title", "value", "frame", "enabled", "focused", "children"}

  /** `opt_string`: a missing string becomes `null`. */
  function OptString(v: Option<string>): (j: Json)
    ensures v.None? <==> j == JNull
    ensures v.Some? ==> AsStr(j) == Some(v.value)
  {
    match v
    case Some(s) => JStr(s)
    case None => JNull
  }

  function OptBool(v: Option<bool>): (j: Json)
    ensures v.None? <==> j == JNull
    ensures v.Some? ==> AsBool(j) == Some(v.value)
  {
    match v
    case Some(b) => JBool(b)
    case None => JNull
  }

  function FrameJson(frame: Option<AxSnapshotRect>): (j: Json)
    ensures frame.None? <==> j == JNull
    ensures frame.Some? ==> j.JObj? && j.fields.Keys == {"x", "y", "width", "height"}
  {
    match frame
    case Some(f) => JObj(map["x" := JReal(f.x), "y" := JReal(f.y), "width" := JReal(f.width), "height" := JReal(f.height)])
    case None => JNull
  }

  /** The node object, given its already built children. */
  function NodeJson(d: AxSnapshotInfo, kids: seq<Json>): (j: Json)
    ensures j.JObj? && j.fields.Keys == NodeKeys
    ensures j.fields["children"] == JArr(kids)
  {
    JObj(map["role" := OptString(d.role), "title" := OptString(d.title), "value" := OptString(d.value),
             "frame" := FrameJson(d.frame), "enabled" := OptBool(d.enabled), "focused" := OptBool(d.focused),
             "children" := JArr(kids)])
  }

  /** `snapshot_tree` as a recursion on the depth budget. */
  function Snapshot<T>(info: T -> AxSnapshotInfo, children: T -> seq<T>, root: T, depth: nat): Json
    decreases depth
  {
    var cs := children(root);
    var kids := if depth == 0 then [] else seq(|cs|, k requires 0 <= k < |cs| => Snapshot(info, children, cs[k], depth - 1));
    NodeJson(info(root), kids)
  }

  /** A node whose children are, one by one, the children's snapshots one
      level shallower is the snapshot. */
  lemma SnapshotOfKids<T>(info: T -> AxSnapshotInfo, children: T -> seq<T>, root: T, depth: nat, kids: seq<Json>)
    requires depth > 0 && |kids| == |children(root)|
    requires forall k :: 0 <= k < |kids| ==> kids[k] == Snapshot(info, children, children(root)[k], depth - 1)
    ensures Snapshot(info, children, root, depth) == NodeJson(info(root), kids)
  {
    var cs := children(root);
    assert kids == seq(|cs|, k requires 0 <= k < |cs| => Snapshot(info, children, cs[k], depth - 1));
  }

  /** `snapshot_tree`: below the depth limit, the children's snapshots are
      taken in order. */
  method SnapshotTree<T>(root: T, depth: nat, info: T -> AxSnapshotInfo, children: T -> seq<T>) returns (j: Json)
    ensures j == Snapshot(info, children, root, depth)
    decreases depth, 1
  {
    var childNodes: seq<Json> := [];
    if depth > 0 {
      childNodes := SnapshotChildren(children(root), depth - 1, info, children);
      SnapshotOfKids(info, children, root, depth, childNodes);
    }
    return NodeJson(info(root), childNodes);
  }

  /** The loop of `snapshot_tree`: each child's snapshot appended in turn. */
  method SnapshotChildren<T>(cs: seq<T>, depth: nat, info: T -> AxSnapshotInfo, children: T -> seq<T>)
      returns (childNodes: seq<Json>)
    ensures |childNodes| == |cs|
    ensures forall k :: 0 <= k < |cs| ==> childNodes[k] == Snapshot(info, children, cs[k], depth)
    decreases depth + 1, 0
  {
    childNodes := [];
    for k := 0 to |cs|
      invariant |childNodes| == k
      invariant forall m :: 0 <= m < k ==> childNodes[m] == Snapshot(info, children, cs[m], depth)
    {
      var child := SnapshotTree(cs[k], depth, info, children);
      ghost var prev := childNodes;
      childNodes := childNodes + [child];
      assert forall m :: 0 <= m < k ==> childNodes[m] == prev[m];
    }
  }

  /** Every node has exactly the seven keys; the attributes are copied with a
      missing one as `null`; at depth 0 the children array is empty, and below
      that there is one entry per child, in order, each a snapshot one level
      shallower. */
  lemma SnapshotNode<T>(info: T -> AxSnapshotInfo, children: T -> seq<T>, root: T, depth: nat)
    ensures var j := Snapshot(info, children, root, depth);
      var d := info(root);
      && j.JObj? && j.fields.Keys == NodeKeys
      && AsStr(Get(j, "role")) == d.role && AsStr(Get(j, "title")) == d.title && AsStr(Get(j, "value")) == d.value
      && (Get(j, "frame") == JNull <==> d.frame.None?)
      && AsBool(Get(j, "enabled")) == d.enabled && AsBool(Get(j, "focused")) == d.focused
      && Get(j, "children").JArr?
    ensures var kids := Get(Snapshot(info, children, root, depth), "children").items;
      && (depth == 0 ==> kids == [])
      && (depth > 0 ==> |kids| == |children(root)|
                        && forall k :: 0 <= k < |kids| ==> kids[k] == Snapshot(info, children, children(root)[k], depth - 1))
  {
  }

  /** `j` is a node whose nesting of `children` arrays is at most `levels` deep. */
  ghost predicate WithinLevels(j: Json, levels: nat)
    decreases levels
  {
    levels > 0 && j.JObj? && "children" in j.fields && j.fields["children"].JArr?
    && forall c :: c in j.fields["children"].items ==> WithinLevels(c, levels - 1)
  }

  /** A snapshot taken with budget `depth` is at most `depth + 1` levels deep. */
  lemma {:induction false} SnapshotLevels<T>(info: T -> AxSnapshotInfo, children: T -> seq<T>, root: T, depth: nat)
    ensures WithinLevels(Snapshot(info, children, root, depth), depth + 1)
    decreases depth
  {
    var j := Snapshot(info, children, root, depth);
    var kids := j.fields["children"].items;
    if depth > 0 {
      forall c | c in kids ensures WithinLevels(c, depth) {
        var k :| 0 <= k < |kids| && kids[k] == c;
        SnapshotLevels(info, children, children(root)[k], depth - 1);
      }
    }
  }

  // ---------------------------------------------------------------- examples

  /** The node type of the unit tests: a role, a title and a fixed frame. */
  datatype TestNode = TestNode(role: string, title: string, children: seq<TestNode>)

  function TestInfo(n: TestNode): AxSnapshotInfo {
    AxSnapshotInfo(Some(n.role), Some(n.title), None, Some(AxSnapshotRect(1.0, 2.0, 3.0, 4.0)), Some(true), Some(false))
  }

  function TestChildren(n: TestNode): seq<TestNode> { n.children }

  /** With budget 2 the root's one child appears with its title and its frame. */
  lemma SnapshotIncludesChild()
    ensures var root := TestNode("AXWindow", "root", [TestNode("AXGroup", "child", [])]);
      var j := Snapshot(TestInfo, TestChildren, root, 2);
      var kids := Get(j, "children");
      && AsStr(Get(j, "role")) == Some("AXWindow")
      && kids.JArr? && |kids.items| == 1
      && AsStr(Get(kids.items[0], "title")) == Some("child")
      && Get(kids.items[0], "frame").JObj?
  {
    var root := TestNode("AXWindow", "root", [TestNode("AXGroup", "child", [])]);
    SnapshotNode(TestInfo, TestChildren, root, 2);
    SnapshotNode(TestInfo, TestChildren, root.children[0], 1);
  }

  /** With budget 1 the grandchild is cut off. */
  lemma SnapshotDepthLimit()
    ensures var leaf := TestNode("AXStaticText", "leaf", []);
      var root := TestNode("AXWindow", "root", [TestNode("AXGroup", "child", [leaf])]);
      var kids := Get(Snapshot(TestInfo, TestChildren, root, 1), "children");
      kids.JArr? && |kids.items| == 1 && Get(kids.items[0], "children") == JArr([])
  {
    var leaf := TestNode("AXStaticText", "leaf", []);
    var root := TestNode("AXWindow", "root", [TestNode("AXGroup", "child", [leaf])]);
    SnapshotNode(TestInfo, TestChildren, root, 1);
    SnapshotNode(TestInfo, TestChildren, root.children[0], 0);
  }
}
