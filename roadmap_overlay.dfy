/**
 * The full-screen roadmap overlay: a fixed sample tree drawn either as a map or as a
 * timeline, a demo that walks the nodes in array order lighting the edge into each one
 * and stops after the last, the Escape key, and the curves drawn between parent and child.
 *
 * The demo interval closes over the rendered `nodes`, so the transitions that need the
 * node list take it as a parameter; `SampleNodes()` is the list the component renders.
 */
module RoadmapOverlay {
  import opened Wrappers
  import opened Lists

  datatype NodeStatus = Active | Locked | Completed | Default

  datatype NodeType = Root | Branch | Leaf

  datatype Details = Details(desc: string, skills: seq<string>, outcome: string)

  /** A node; all coordinates are percentages of the drawing area. */
  datatype Node = Node(
    id: string, name: string,
    x: int, y: int, timelineX: int, timelineY: int,
    kind: NodeType, status: NodeStatus,
    parentId: Option<string>, month: Option<string>,
    details: Details)

  datatype ViewMode = Tree | Timeline

  /** The parent id is set and non-empty: an empty string is falsy, so it counts as no parent. */
  predicate HasParentId(n: Node) {
    n.parentId.Some? && n.parentId.value != ""
  }

  /** The edge being lit by the demo, by node ids. */
  datatype Connection = Connection(from: string, to: string)

  function SampleNodes(): seq<Node> {
    [ Node("root", "Student Profile", 50, 80, 10, 50, Root, Active, None, None,
        Details("Year 2 Student, Aiming for SDE roles.", ["Time: 2-3 hrs/day"], "Foundation Set")),
      Node("b1", "Core Skills", 20, 55, 25, 30, Branch, Completed, Some("root"), Some("Month 1"),
        Details("Building the technical bedrock.", ["Logic", "Syntax"], "Problem Solving")),
      Node("b1-1", "DSA Basics", 10, 40, 25, 70, Leaf, Completed, Some("b1"), None,
        Details("Arrays & Strings mastery", ["Java/C++"], "LeetCode Easy")),
      Node("b1-2", "Adv. Algorithms", 25, 35, 40, 30, Leaf, Locked, Some("b1"), None,
        Details("DP & Graphs", ["Optimization"], "LeetCode Hard")),
      Node("b2", "Projects", 50, 50, 55, 50, Branch, Active, Some("root"), Some("Month 2"),
        Details("Applying theory to reality.", ["React", "Node"], "Portfolio Piece")),
      Node("b2-1", "Personal Site", 40, 30, 55, 20, Leaf, Completed, Some("b2"), None,
        Details("Showcase yourself", ["HTML/CSS"], "Live URL")),
      Node("b2-2", "Full Stack App", 60, 30, 70, 50, Leaf, Active, Some("b2"), None,
        Details("E-commerce Clone", ["DB Design", "API"], "Complex System")),
      Node("b3", "Placement Prep", 80, 55, 85, 50, Branch, Locked, Some("root"), Some("Month 3"),
        Details("Cracking the interview.", ["Mock Interviews"], "Job Offer")),
      Node("b3-1", "Resume", 75, 40, 85, 20, Leaf, Locked, Some("b3"), None,
        Details("ATS Optimization", ["Writing"], "Shortlists")),
      Node("b3-2", "System Design", 90, 35, 95, 50, Leaf, Locked, Some("b3"), None,
        Details("Scalability", ["Load Balancing"], "L5 Level")) ]
  }

  function Ids(nodes: seq<Node>): seq<string> {
    seq(|nodes|, i requires 0 <= i < |nodes| => nodes[i].id)
  }

  function Parents(nodes: seq<Node>): seq<Option<string>> {
    seq(|nodes|, i requires 0 <= i < |nodes| => nodes[i].parentId)
  }

  /**
   * The sample is a tree listed parents-first: ten nodes with distinct ids, only the first
   * has no parent, and every other node's parent appears earlier in the list.
   */
  ghost predicate ParentsFirstTree(nodes: seq<Node>) {
    && |nodes| > 0
    && NoDup(Ids(nodes))
    && "" !in Ids(nodes)
    && nodes[0].parentId.None?
    && forall k :: 0 < k < |nodes| ==>
         Parents(nodes)[k].Some? && Parents(nodes)[k].value in Ids(nodes)[..k]
  }

  /** The sample's ids, in list order. */
  const SampleIds: seq<string> := ["root", "b1", "b1-1", "b1-2", "b2", "b2-1", "b2-2", "b3", "b3-1", "b3-2"]

  /** The sample's parent links, in list order. */
  const SampleParents: seq<Option<string>> := [None, Some("root"), Some("b1"), Some("b1"), Some("root"),
                                              Some("b2"), Some("b2"), Some("root"), Some("b3"), Some("b3")]

  lemma SampleColumns()
    ensures |SampleNodes()| == 10
    ensures Ids(SampleNodes()) == SampleIds && Parents(SampleNodes()) == SampleParents
  {
  }

  /** Parents-first order of the sample, checked on its id and parent columns alone. */
  lemma SampleColumnsOrdered()
    ensures NoDup(SampleIds) && "" !in SampleIds
    ensures forall k :: 0 < k < |SampleParents| ==>
      SampleParents[k].Some? && SampleParents[k].value in SampleIds[..k]
  {
    forall k | 0 < k < |SampleParents|
      ensures SampleParents[k].Some? && SampleParents[k].value in SampleIds[..k]
    {
      var p := if k == 1 || k == 4 || k == 7 then 0 else if k == 2 || k == 3 then 1 else if k == 5 || k == 6 then 4 else 7;
      assert SampleIds[..k][p] == SampleIds[p];
    }
  }

  lemma SampleShape()
    ensures |SampleNodes()| == 10
    ensures ParentsFirstTree(SampleNodes())
  {
    SampleColumns();
    SampleColumnsOrdered();
  }

  /** The node whose id is the selection (`nodes.find`), if any. */
  function FindNode(nodes: seq<Node>, sel: Option<string>): (r: Option<Node>)
    ensures r.Some? <==> sel.Some? && sel.value in Ids(nodes)
    ensures r.Some? ==> r.value in nodes && r.value.id == sel.value
  {
    if sel.None? then None
    else
      var i := IndexOf(Ids(nodes), sel.value);
      if i < 0 then None else Some(nodes[i])
  }

  /** `findIndex` of the selection: -1 when nothing is selected or the id is not a node. */
  function SelectedIndex(nodes: seq<Node>, sel: Option<string>): (i: int)
    ensures -1 <= i < |nodes|
    ensures i >= 0 ==> sel == Some(nodes[i].id)
    ensures i == -1 <==> FindNode(nodes, sel).None?
  {
    if sel.None? then -1 else IndexOf(Ids(nodes), sel.value)
  }

  /** With distinct ids, the node at index `k` is found by its own id. */
  lemma SelectedIndexAt(nodes: seq<Node>, k: nat)
    requires NoDup(Ids(nodes)) && k < |nodes|
    ensures SelectedIndex(nodes, Some(nodes[k].id)) == k
    ensures FindNode(nodes, Some(nodes[k].id)) == Some(nodes[k])
  {
    IndexOfAt(Ids(nodes), k);
  }

  datatype OverlayState = OverlayState(
    view: ViewMode, selected: Option<string>, playing: bool, conn: Option<Connection>)

  /** What the component starts with: map view, nothing selected, no demo, no lit edge. */
  function Initial(): OverlayState {
    OverlayState(Tree, None, false, None)
  }

  /** The demo effect clears the lit edge whenever it runs with the demo off. */
  ghost predicate Settled(s: OverlayState) {
    !s.playing ==> s.conn.None?
  }

  /** The overlay becomes visible; on a narrow screen the timeline view is forced. */
  function Open(s: OverlayState, isMobile: bool): OverlayState {
    if isMobile then s.(view := Timeline) else s
  }

  /** The Map / Timeline buttons. */
  function SetView(s: OverlayState, mode: ViewMode): OverlayState {
    s.(view := mode)
  }

  /** Play Sample starts the demo from the first node; pressing it again stops the demo. */
  function TogglePlay(nodes: seq<Node>, s: OverlayState): OverlayState
    requires |nodes| > 0
  {
    if s.playing then s.(playing := false, conn := None)
    else s.(playing := true, selected := Some(nodes[0].id))
  }

  /**
   * One firing of the demo interval: move to the node after the selected one (to the first
   * when the selection does not resolve) and light the edge from its parent, or from the
   * previous node when it has none; past the last node the demo stops and nothing is lit.
   */
  function DemoTick(nodes: seq<Node>, s: OverlayState): OverlayState {
    if !s.playing then s
    else
      var currentIndex := SelectedIndex(nodes, s.selected);
      var nextIndex := currentIndex + 1;
      if nextIndex >= |nodes| then s.(playing := false, conn := None)
      else
        var prevNode := nodes[if currentIndex >= 0 then currentIndex else 0];
        var nextNode := nodes[nextIndex];
        var from := if HasParentId(nextNode) then nextNode.parentId.value else prevNode.id;
        s.(conn := Some(Connection(from, nextNode.id)), selected := Some(nextNode.id))
  }

  function DemoTicks(nodes: seq<Node>, s: OverlayState, k: nat): OverlayState {
    if k == 0 then s else DemoTick(nodes, DemoTicks(nodes, s, k - 1))
  }

  /** A node click selects it; a running demo carries on from there. */
  function ClickNode(s: OverlayState, id: string): OverlayState {
    s.(selected := Some(id))
  }

  /** The close button of the detail panel. */
  function CloseDetail(s: OverlayState): OverlayState {
    s.(selected := None, conn := if s.playing then s.conn else None)
  }

  datatype KeyReaction = KeyReaction(state: OverlayState, requestClose: bool)

  /**
   * Escape while the overlay is open: it first clears the selection, and only with nothing
   * selected asks the owner to close the overlay. A closed overlay does not listen.
   */
  function Escape(s: OverlayState, isOpen: bool): KeyReaction {
    if !isOpen then KeyReaction(s, false)
    else if s.selected.Some? then KeyReaction(CloseDetail(s), false)
    else KeyReaction(s, true)
  }

  /** The node shown in the side panel; the panel is rendered exactly when this is `Some`. */
  function ActiveNode(nodes: seq<Node>, s: OverlayState): Option<Node> {
    FindNode(nodes, s.selected)
  }

  /** The small heading of the side panel. */
  function PanelHeading(n: Node): (r: string)
    ensures n.kind == Root ==> r == "Start Point"
    ensures n.kind != Root && n.month.Some? && n.month.value != "" ==> r == n.month.value
    ensures n.kind != Root && (n.month.None? || n.month.value == "") ==> r == "Phase Detail"
  {
    if n.kind == Root then "Start Point"
    else if n.month.Some? && n.month.value != "" then n.month.value
    else "Phase Detail"
  }

  /** On the sample: the root opens as the start point, each branch under its month, and a leaf as a phase detail. */
  lemma SampleHeadings()
    ensures PanelHeading(SampleNodes()[0]) == "Start Point"
    ensures PanelHeading(SampleNodes()[1]) == "Month 1"
    ensures PanelHeading(SampleNodes()[4]) == "Month 2"
    ensures PanelHeading(SampleNodes()[7]) == "Month 3"
    ensures PanelHeading(SampleNodes()[2]) == "Phase Detail"
  {
  }

  /** Where a node is drawn in the given view. */
  function Position(n: Node, mode: ViewMode): (int, int) {
    if mode == Tree then (n.x, n.y) else (n.timelineX, n.timelineY)
  }

  /** One drawn edge: endpoints in the current view and whether the demo lights it. */
  datatype Link = Link(from: string, to: string, sx: int, sy: int, ex: int, ey: int, glowing: bool)

  /** The parent an edge is drawn from: none for a missing or empty parent id, else `nodes.find` by that id. */
  function ParentNode(all: seq<Node>, n: Node): Option<Node> {
    if HasParentId(n) then FindNode(all, n.parentId) else None
  }

  /** The target ids of a list of edges. */
  function Targets(r: seq<Link>): seq<string> {
    seq(|r|, i requires 0 <= i < |r| => r[i].to)
  }

  /**
   * `l` is the edge drawn into `n`: from its resolved parent to it, between the two
   * nodes' positions in the view `mode`.
   */
  predicate EdgeInto(all: seq<Node>, n: Node, mode: ViewMode, l: Link) {
    && ParentNode(all, n).Some?
    && l.from == ParentNode(all, n).value.id && l.to == n.id
    && (l.sx, l.sy) == Position(ParentNode(all, n).value, mode)
    && (l.ex, l.ey) == Position(n, mode)
  }

  /** The edge into `n`, glowing when it is the lit connection. */
  function EdgeOf(all: seq<Node>, n: Node, mode: ViewMode, conn: Option<Connection>): (l: Link)
    requires ParentNode(all, n).Some?
    ensures EdgeInto(all, n, mode, l)
    ensures l.glowing <==> conn == Some(Connection(l.from, l.to))
  {
    var p := ParentNode(all, n).value;
    var (sx, sy) := Position(p, mode);
    var (ex, ey) := Position(n, mode);
    var glowing := conn.Some? && conn.value.from == p.id && conn.value.to == n.id;
    Link(p.id, n.id, sx, sy, ex, ey, glowing)
  }

  /**
   * The edges drawn for the nodes `rest` (all of `all` when rendering): every edge is the
   * edge into one of them, every node whose parent resolves gets its edge, and an edge
   * glows exactly when it is the lit connection.
   */
  function Links(all: seq<Node>, rest: seq<Node>, mode: ViewMode, conn: Option<Connection>): (r: seq<Link>)
    ensures |r| <= |rest|
    ensures forall l <- r :: l.glowing <==> conn == Some(Connection(l.from, l.to))
    ensures forall l <- r :: exists n <- rest :: EdgeInto(all, n, mode, l)
    ensures forall n {:trigger EdgeOf(all, n, mode, conn)} ::
      n in rest && ParentNode(all, n).Some? ==> EdgeOf(all, n, mode, conn) in r
  {
    if rest == [] then []
    else
      var n := rest[0];
      var tail := Links(all, rest[1..], mode, conn);
      assert forall m <- rest[1..] :: m in rest;
      assert forall m <- rest :: m == n || m in rest[1..];
      if ParentNode(all, n).None? then tail
      else [EdgeOf(all, n, mode, conn)] + tail
  }

  /** An id that no node of `rest` carries is the target of none of their edges. */
  lemma TargetsAmong(all: seq<Node>, rest: seq<Node>, mode: ViewMode, conn: Option<Connection>, id: string)
    requires id !in Ids(rest)
    ensures id !in Targets(Links(all, rest, mode, conn))
  {
    var r := Links(all, rest, mode, conn);
    forall k | 0 <= k < |r| ensures Targets(r)[k] != id {
      assert r[k] in r;
      var m :| m in rest && EdgeInto(all, m, mode, r[k]);
      var j :| 0 <= j < |rest| && rest[j] == m;
      assert Ids(rest)[j] == m.id;
    }
  }

  lemma TargetsPrepend(l: Link, r: seq<Link>)
    ensures Targets([l] + r) == [l.to] + Targets(r)
  {
  }

  /** With distinct ids, the first node's id is not among the others'. */
  lemma FirstIdUnique(rest: seq<Node>)
    requires NoDup(Ids(rest)) && |rest| > 0
    ensures rest[0].id !in Ids(rest[1..]) && NoDup(Ids(rest[1..]))
  {
    assert Ids(rest[1..]) == Ids(rest)[1..];
    assert Ids(rest)[0] == rest[0].id;
  }

  /** With distinct node ids, no node has two edges drawn into it. */
  lemma {:induction false} OneEdgePerNode(all: seq<Node>, rest: seq<Node>, mode: ViewMode, conn: Option<Connection>)
    requires NoDup(Ids(rest))
    ensures NoDup(Targets(Links(all, rest, mode, conn)))
  {
    if rest != [] {
      FirstIdUnique(rest);
      OneEdgePerNode(all, rest[1..], mode, conn);
      if ParentNode(all, rest[0]).Some? {
        var l := EdgeOf(all, rest[0], mode, conn);
        var tail := Links(all, rest[1..], mode, conn);
        TargetsAmong(all, rest[1..], mode, conn, rest[0].id);
        TargetsPrepend(l, tail);
        NoDupPrepend(l.to, Targets(tail));
      }
    }
  }

  /** With distinct ids, a node whose parent id is missing, empty or unresolved has no edge into it. */
  lemma {:induction false} NoEdgeWithoutParent(all: seq<Node>, rest: seq<Node>, mode: ViewMode, conn: Option<Connection>, n: Node)
    requires NoDup(Ids(rest)) && n in rest && ParentNode(all, n).None?
    ensures forall l <- Links(all, rest, mode, conn) :: l.to != n.id
  {
    var r := Links(all, rest, mode, conn);
    forall l | l in r ensures l.to != n.id {
      var m :| m in rest && EdgeInto(all, m, mode, l);
      var i :| 0 <= i < |rest| && rest[i] == m;
      var j :| 0 <= j < |rest| && rest[j] == n;
      assert i != j;
      assert Ids(rest)[i] != Ids(rest)[j];
    }
  }

  /** The four points of the cubic curve of an edge (start, two controls, end). */
  datatype Curve = Curve(x0: real, y0: real, x1: real, y1: real, x2: real, y2: real, x3: real, y3: real)

  /** Map view bends vertically through the middle height; timeline view horizontally through the middle width. */
  function EdgeCurve(l: Link, mode: ViewMode): (c: Curve)
    ensures (c.x0, c.y0) == (l.sx as real, l.sy as real) && (c.x3, c.y3) == (l.ex as real, l.ey as real)
    ensures mode == Tree ==> c.x1 == c.x0 && c.x2 == c.x3 && c.y1 == c.y2 && c.y1 - c.y0 == c.y3 - c.y2
    ensures mode == Timeline ==> c.y1 == c.y0 && c.y2 == c.y3 && c.x1 == c.x2 && c.x1 - c.x0 == c.x3 - c.x2
  {
    var midY := (l.sy as real + l.ey as real) / 2.0;
    var midX := (l.sx as real + l.ex as real) / 2.0;
    if mode == Tree then
      Curve(l.sx as real, l.sy as real, l.sx as real, midY, l.ex as real, midY, l.ex as real, l.ey as real)
    else
      Curve(l.sx as real, l.sy as real, midX, l.sy as real, midX, l.ey as real, l.ex as real, l.ey as real)
  }

  /** Every transition keeps the lit edge cleared while the demo is off. */
  lemma TransitionsKeepSettled(nodes: seq<Node>, s: OverlayState, mode: ViewMode, id: string, isMobile: bool)
    requires |nodes| > 0 && Settled(s)
    ensures Settled(Open(s, isMobile)) && Settled(SetView(s, mode))
    ensures Settled(TogglePlay(nodes, s)) && Settled(DemoTick(nodes, s))
    ensures Settled(ClickNode(s, id)) && Settled(CloseDetail(s))
    ensures Settled(Escape(s, true).state) && Settled(Escape(s, false).state)
  {
  }

  /** Starting the demo selects the first node and lights nothing yet. */
  lemma PlayStartsAtFirstNode(nodes: seq<Node>, s: OverlayState)
    requires |nodes| > 0 && !s.playing && Settled(s)
    ensures TogglePlay(nodes, s) == s.(playing := true, selected := Some(nodes[0].id))
    ensures TogglePlay(nodes, s).conn.None?
  {
  }

  lemma DemoTicksStep(nodes: seq<Node>, s: OverlayState, k: nat)
    requires |nodes| > 0 && k > 0
    ensures DemoTicks(nodes, s, k) == DemoTick(nodes, DemoTicks(nodes, s, k - 1))
  {
  }

  /** From the node at index `j`, a tick moves to `j + 1` and lights the edge from its parent. */
  lemma DemoStep(nodes: seq<Node>, s: OverlayState, j: nat)
    requires NoDup(Ids(nodes)) && s.playing && j + 1 < |nodes| && HasParentId(nodes[j + 1])
    requires s.selected == Some(nodes[j].id)
    ensures DemoTick(nodes, s) ==
      s.(conn := Some(Connection(nodes[j + 1].parentId.value, nodes[j + 1].id)), selected := Some(nodes[j + 1].id))
  {
    SelectedIndexAt(nodes, j);
  }

  /** From the last node, a tick stops the demo, keeps the selection and clears the lit edge. */
  lemma DemoStopsAfterLast(nodes: seq<Node>, s: OverlayState)
    requires NoDup(Ids(nodes)) && |nodes| > 0 && s.playing
    requires s.selected == Some(nodes[|nodes| - 1].id)
    ensures DemoTick(nodes, s) == s.(playing := false, conn := None)
  {
    SelectedIndexAt(nodes, |nodes| - 1);
  }

  /** Every node but the first has a parent link. */
  predicate ParentedAfterFirst(nodes: seq<Node>) {
    forall j :: 0 < j < |nodes| ==> HasParentId(nodes[j])
  }

  lemma TreeFacts(nodes: seq<Node>)
    requires ParentsFirstTree(nodes)
    ensures NoDup(Ids(nodes)) && ParentedAfterFirst(nodes)
  {
    forall j | 0 < j < |nodes| ensures HasParentId(nodes[j]) {
      assert Parents(nodes)[j] == nodes[j].parentId;
      var p := nodes[j].parentId.value;
      var i :| 0 <= i < j && Ids(nodes)[..j][i] == p;
      assert Ids(nodes)[i] == p;
    }
  }

  /**
   * Playing from the node at index `i`, `k` further ticks (with `i + k` still a node) select
   * the node at `i + k` and light the edge from its parent; the demo is still running.
   */
  lemma {:induction false} DemoWalk(nodes: seq<Node>, s: OverlayState, i: nat, k: nat)
    requires NoDup(Ids(nodes)) && ParentedAfterFirst(nodes) && s.playing && i + k < |nodes|
    requires s.selected == Some(nodes[i].id)
    ensures DemoTicks(nodes, s, k) == s.(selected := Some(nodes[i + k].id),
      conn := if k == 0 then s.conn else Some(Connection(nodes[i + k].parentId.value, nodes[i + k].id)))
  {
    if k > 0 {
      DemoWalk(nodes, s, i, k - 1);
      DemoStep(nodes, DemoTicks(nodes, s, k - 1), i + k - 1);
    }
  }

  /**
   * The whole demo: after Play, one tick per remaining node reaches the last node, and the
   * next tick stops the demo on it with nothing lit.
   */
  lemma {:induction false} DemoRunsToEndThenStops(nodes: seq<Node>, s: OverlayState)
    requires ParentsFirstTree(nodes) && !s.playing
    ensures var started := TogglePlay(nodes, s);
      && DemoTicks(nodes, started, |nodes| - 1).selected == Some(nodes[|nodes| - 1].id)
      && DemoTicks(nodes, started, |nodes| - 1).playing
      && DemoTicks(nodes, started, |nodes|) ==
           DemoTicks(nodes, started, |nodes| - 1).(playing := false, conn := None)
  {
    var started := TogglePlay(nodes, s);
    var n := |nodes|;
    TreeFacts(nodes);
    DemoWalk(nodes, started, 0, n - 1);
    var last := DemoTicks(nodes, started, n - 1);
    assert last.playing && last.selected == Some(nodes[n - 1].id);
    DemoTicksStep(nodes, started, n);
    DemoStopsAfterLast(nodes, last);
  }

  /** On the sample tree: Play, nine ticks to "System Design" (`b3-2`), and the tenth stops the demo. */
  lemma {:induction false} SampleDemo(s: OverlayState)
    requires !s.playing
    ensures var started := TogglePlay(SampleNodes(), s);
      && started.selected == Some("root")
      && DemoTicks(SampleNodes(), started, 9).selected == Some("b3-2")
      && DemoTicks(SampleNodes(), started, 9).playing
      && !DemoTicks(SampleNodes(), started, 10).playing
      && DemoTicks(SampleNodes(), started, 10).conn.None?
  {
    SampleShape();
    DemoRunsToEndThenStops(SampleNodes(), s);
  }

  /** The lit edge is always one that is drawn, in either view. */
  lemma {:induction false} LitEdgeIsDrawn(nodes: seq<Node>, s: OverlayState, i: nat, mode: ViewMode)
    requires ParentsFirstTree(nodes) && s.playing && i + 1 < |nodes|
    requires s.selected == Some(nodes[i].id)
    ensures var t := DemoTick(nodes, s);
      exists l <- Links(nodes, nodes, mode, t.conn) :: l.glowing && l.to == nodes[i + 1].id
  {
    var next := nodes[i + 1];
    assert Parents(nodes)[i + 1] == next.parentId;
    var parent := next.parentId.value;
    DemoStep(nodes, s, i);
    assert parent in Ids(nodes) by {
      var j :| 0 <= j < i + 1 && Ids(nodes)[..i + 1][j] == parent;
      assert Ids(nodes)[j] == parent;
    }
    assert parent != "" by {
      assert parent in Ids(nodes);
    }
    var conn := DemoTick(nodes, s).conn;
    assert ParentNode(nodes, next).Some?;
    var l := EdgeOf(nodes, next, mode, conn);
    assert next in nodes;
    assert l in Links(nodes, nodes, mode, conn);
    assert l.glowing;
  }

  /**
   * Escape during the demo only clears the selection; the next tick then restarts from the
   * first node, and the "edge" it lights runs from the first node to itself, which is not drawn.
   */
  lemma EscapeDuringDemoRestarts(nodes: seq<Node>, s: OverlayState, mode: ViewMode)
    requires ParentsFirstTree(nodes) && s.playing && s.selected.Some?
    ensures Escape(s, true).requestClose == false
    ensures var t := DemoTick(nodes, Escape(s, true).state);
      t.selected == Some(nodes[0].id) && t.playing &&
      t.conn == Some(Connection(nodes[0].id, nodes[0].id))
    ensures var t := DemoTick(nodes, Escape(s, true).state);
      forall l <- Links(nodes, nodes, mode, t.conn) :: l.to != nodes[0].id && !l.glowing
  {
    var t := DemoTick(nodes, Escape(s, true).state);
    NoEdgeWithoutParent(nodes, nodes, mode, t.conn, nodes[0]);
  }

  /** Escape with nothing selected hands the close request to the owner and changes nothing. */
  lemma EscapeWithoutSelectionCloses(s: OverlayState)
    requires s.selected.None?
    ensures Escape(s, true) == KeyReaction(s, true)
    ensures Escape(s, false) == KeyReaction(s, false)
  {
  }

  /** The component itself: its `useState` variables as fields. */
  class OverlayView {
    /** The rendered node list the handlers close over. */
    const nodes: seq<Node>
    var viewMode: ViewMode
    var selectedNodeId: Option<string>
    var isDemoPlaying: bool
    var activeConnection: Option<Connection>

    function State(): OverlayState
      reads this
    {
      OverlayState(viewMode, selectedNodeId, isDemoPlaying, activeConnection)
    }

    constructor ()
      ensures nodes == SampleNodes() && State() == Initial()
    {
      nodes := SampleNodes();
      viewMode := Tree;
      selectedNodeId := None;
      isDemoPlaying := false;
      activeConnection := None;
    }

    method BecomeVisible(isMobile: bool)
      modifies this
      ensures State() == Open(old(State()), isMobile)
    {
      if isMobile {
        viewMode := Timeline;
      }
    }

    method ViewButton(mode: ViewMode)
      modifies this
      ensures State() == SetView(old(State()), mode)
    {
      viewMode := mode;
    }

    method PlayButton()
      requires |nodes| > 0
      modifies this
      ensures State() == TogglePlay(nodes, old(State()))
    {
      var wasPlaying := isDemoPlaying;
      isDemoPlaying := !wasPlaying;
      if !wasPlaying {
        selectedNodeId := Some(nodes[0].id);
      } else {
        activeConnection := None;
      }
    }

    method DemoIntervalFires()
      modifies this
      ensures State() == DemoTick(nodes, old(State()))
    {
      if isDemoPlaying {
        var currentIndex := SelectedIndex(nodes, selectedNodeId);
        var nextIndex := currentIndex + 1;
        if nextIndex >= |nodes| {
          isDemoPlaying := false;
          activeConnection := None;
        } else {
          var prevNode := nodes[if currentIndex >= 0 then currentIndex else 0];
          var nextNode := nodes[nextIndex];
          if HasParentId(nextNode) {
            activeConnection := Some(Connection(nextNode.parentId.value, nextNode.id));
          } else {
            activeConnection := Some(Connection(prevNode.id, nextNode.id));
          }
          selectedNodeId := Some(nextNode.id);
        }
      }
    }

    method NodeClick(id: string)
      modifies this
      ensures State() == ClickNode(old(State()), id)
    {
      selectedNodeId := Some(id);
    }

    method CloseDetailButton()
      modifies this
      ensures State() == CloseDetail(old(State()))
    {
      selectedNodeId := None;
      if !isDemoPlaying {
        activeConnection := None;
      }
    }

    method EscapeKey(isOpen: bool) returns (requestClose: bool)
      modifies this
      ensures KeyReaction(State(), requestClose) == Escape(old(State()), isOpen)
    {
      requestClose := false;
      if isOpen {
        if selectedNodeId.Some? {
          CloseDetailButton();
        } else {
          requestClose := true;
        }
      }
    }
  }
}
