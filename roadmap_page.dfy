/**
 * The career-roadmap page: a constant role -> graph dataset, the effect that picks a
 * default node, the tour that walks the nodes and wraps around, and the click handlers.
 *
 * The component's state is its three `useState` variables (role, selected node id,
 * tour flag). Each handler, together with the effect it triggers, is one transition
 * function on `PageState`; the class `RoadmapPageView` holds the same variables as
 * fields and its methods are specified by those functions.
 */
module RoadmapPage {
  import opened Wrappers
  import opened Lists

  datatype RoleId =
    | Sde | Frontend | Backend | Fullstack | DataAnalyst
    | DataScientist | Ml | Devops | Mobile | Uiux

  datatype RoleDefinition = RoleDefinition(id: RoleId, name: string, desc: string)

  datatype Status = Completed | Active | Pending | Locked

  datatype Details = Details(description: string, why: string, time: string, tip: string)

  /** A node; `x` and `y` are percentages of the drawing box (100 is the bottom). */
  datatype NodeData = NodeData(id: string, name: string, x: int, y: int, status: Status, details: Details)

  datatype EdgeData = EdgeData(from: string, to: string)

  datatype Graph = Graph(nodes: seq<NodeData>, edges: seq<EdgeData>)

  /** The role buttons of the left sidebar, in display order. */
  const Roles: seq<RoleDefinition> := [
    RoleDefinition(Sde, "Software Engineer", "Generalist"),
    RoleDefinition(Frontend, "Frontend Engineer", "Web UI & UX"),
    RoleDefinition(Backend, "Backend Engineer", "API & Systems"),
    RoleDefinition(Fullstack, "Full Stack Engineer", "End-to-End"),
    RoleDefinition(DataAnalyst, "Data Analyst", "Insights & Viz"),
    RoleDefinition(DataScientist, "Data Scientist", "Models & Stats"),
    RoleDefinition(Ml, "ML Engineer", "AI Systems"),
    RoleDefinition(Devops, "DevOps / Cloud", "Infra & CI/CD"),
    RoleDefinition(Mobile, "Mobile Developer", "iOS & Android"),
    RoleDefinition(Uiux, "UI/UX Engineer", "Design System")
  ]

  const DefaultDetails := Details(
    "Master the fundamentals to build a strong base.",
    "Essential for passing technical interviews and building scalable systems.",
    "3-4 Weeks",
    "Build at least 2 mini-projects.")

  function FrontendGraph(): Graph {
    Graph(
      [ NodeData("htmlcss", "HTML & CSS", 50, 85, Completed,
          DefaultDetails.(description := "Semantic HTML and modern CSS Layouts (Flexbox/Grid).", time := "2 Weeks")),
        NodeData("js", "JavaScript (ES6+)", 30, 70, Active,
          DefaultDetails.(description := "Async/Await, DOM manipulation, Closures.", why := "The language of the web.", time := "4-6 Weeks")),
        NodeData("react", "React.js", 70, 55, Pending,
          DefaultDetails.(description := "Components, Hooks, State Management.", time := "6 Weeks")),
        NodeData("perf", "Performance", 40, 40, Locked, DefaultDetails),
        NodeData("a11y", "Accessibility", 80, 35, Locked, DefaultDetails),
        NodeData("system", "Frontend System Design", 50, 15, Locked, DefaultDetails) ],
      [ EdgeData("htmlcss", "js"), EdgeData("js", "react"), EdgeData("react", "perf"),
        EdgeData("react", "a11y"), EdgeData("perf", "system"), EdgeData("a11y", "system") ])
  }

  function BackendGraph(): Graph {
    Graph(
      [ NodeData("lang", "Java / Python", 50, 85, Completed, DefaultDetails),
        NodeData("db", "Databases (SQL)", 25, 70, Active, DefaultDetails),
        NodeData("api", "REST APIs", 75, 70, Active, DefaultDetails),
        NodeData("auth", "Auth (JWT/OAuth)", 50, 50, Pending, DefaultDetails),
        NodeData("cache", "Caching (Redis)", 30, 30, Locked, DefaultDetails),
        NodeData("scale", "Scalability", 60, 15, Locked, DefaultDetails) ],
      [ EdgeData("lang", "db"), EdgeData("lang", "api"), EdgeData("db", "auth"),
        EdgeData("api", "auth"), EdgeData("auth", "cache"), EdgeData("cache", "scale") ])
  }

  /** The generalist graph, also served for every role without a graph of its own. */
  function SdeGraph(): Graph {
    Graph(
      [ NodeData("prog", "Prog Basics", 50, 85, Completed, DefaultDetails),
        NodeData("dsa", "DSA & Algos", 50, 70, Active,
          DefaultDetails.(description := "Arrays, Trees, Graphs, DP.", why := "Crucial for OA and technical rounds.")),
        NodeData("oop", "OOPs", 30, 55, Pending, DefaultDetails),
        NodeData("db", "DBMS", 70, 55, Pending, DefaultDetails),
        NodeData("os", "OS & Networks", 50, 40, Locked, DefaultDetails),
        NodeData("sys", "System Design", 50, 20, Locked, DefaultDetails) ],
      [ EdgeData("prog", "dsa"), EdgeData("dsa", "oop"), EdgeData("dsa", "db"),
        EdgeData("oop", "os"), EdgeData("db", "os"), EdgeData("os", "sys") ])
  }

  /** The ids of `nodes`, in order. */
  function Ids(nodes: seq<NodeData>): seq<string> {
    seq(|nodes|, i requires 0 <= i < |nodes| => nodes[i].id)
  }

  /** The statuses of `nodes`, in order. */
  function Statuses(nodes: seq<NodeData>): seq<Status> {
    seq(|nodes|, i requires 0 <= i < |nodes| => nodes[i].status)
  }

  /**
   * What the static data guarantees of a graph: it has a node, node ids are distinct,
   * every edge names two nodes of the graph, and every coordinate is a percentage.
   */
  ghost predicate WellFormed(g: Graph) {
    && |g.nodes| > 0
    && NoDup(Ids(g.nodes))
    && (forall e <- g.edges :: e.from in Ids(g.nodes) && e.to in Ids(g.nodes))
    && (forall n <- g.nodes :: 0 <= n.x <= 100 && 0 <= n.y <= 100)
  }

  /** The graph served for a role: frontend and backend have their own, all others the generalist one. */
  function GetRoadmapData(role: RoleId): Graph {
    match role
    case Frontend => FrontendGraph()
    case Backend => BackendGraph()
    case _ => SdeGraph()
  }

  /** Every served graph is well formed; roles without a graph of their own get the generalist one. */
  lemma RoadmapDataWellFormed(role: RoleId)
    ensures WellFormed(GetRoadmapData(role))
    ensures role != Frontend && role != Backend ==> GetRoadmapData(role) == SdeGraph()
  {
    FrontendWellFormed();
    BackendWellFormed();
    SdeWellFormed();
  }

  /** A graph is well formed once its id column is known to be free of repetitions and to cover every edge. */
  lemma WellFormedByIds(g: Graph, ids: seq<string>)
    requires Ids(g.nodes) == ids && |ids| > 0 && NoDup(ids)
    requires forall e <- g.edges :: e.from in ids && e.to in ids
    requires forall n <- g.nodes :: 0 <= n.x <= 100 && 0 <= n.y <= 100
    ensures WellFormed(g)
  {
  }

  const FrontendIdList: seq<string> := ["htmlcss", "js", "react", "perf", "a11y", "system"]
  const BackendIdList: seq<string> := ["lang", "db", "api", "auth", "cache", "scale"]
  const SdeIdList: seq<string> := ["prog", "dsa", "oop", "db", "os", "sys"]

  lemma FrontendIds()
    ensures Ids(FrontendGraph().nodes) == FrontendIdList && NoDup(FrontendIdList)
  {
  }

  lemma FrontendEdges()
    ensures forall e <- FrontendGraph().edges :: e.from in FrontendIdList && e.to in FrontendIdList
  {
  }

  lemma FrontendCoordinates()
    ensures forall n <- FrontendGraph().nodes :: 0 <= n.x <= 100 && 0 <= n.y <= 100
  {
  }

  lemma FrontendWellFormed()
    ensures WellFormed(FrontendGraph())
  {
    FrontendIds();
    FrontendEdges();
    FrontendCoordinates();
    WellFormedByIds(FrontendGraph(), FrontendIdList);
  }

  lemma BackendIds()
    ensures Ids(BackendGraph().nodes) == BackendIdList && NoDup(BackendIdList)
  {
  }

  lemma BackendEdges()
    ensures forall e <- BackendGraph().edges :: e.from in BackendIdList && e.to in BackendIdList
  {
  }

  lemma BackendCoordinates()
    ensures forall n <- BackendGraph().nodes :: 0 <= n.x <= 100 && 0 <= n.y <= 100
  {
  }

  lemma BackendWellFormed()
    ensures WellFormed(BackendGraph())
  {
    BackendIds();
    BackendEdges();
    BackendCoordinates();
    WellFormedByIds(BackendGraph(), BackendIdList);
  }

  lemma SdeIds()
    ensures Ids(SdeGraph().nodes) == SdeIdList && NoDup(SdeIdList)
  {
  }

  lemma SdeEdges()
    ensures forall e <- SdeGraph().edges :: e.from in SdeIdList && e.to in SdeIdList
  {
  }

  lemma SdeCoordinates()
    ensures forall n <- SdeGraph().nodes :: 0 <= n.x <= 100 && 0 <= n.y <= 100
  {
  }

  lemma SdeWellFormed()
    ensures WellFormed(SdeGraph())
  {
    SdeIds();
    SdeEdges();
    SdeCoordinates();
    WellFormedByIds(SdeGraph(), SdeIdList);
  }

  /** The nodes rendered for a role; every role has some. */
  function Nodes(role: RoleId): (r: seq<NodeData>)
    ensures |r| > 0
  {
    RoadmapDataWellFormed(role);
    GetRoadmapData(role).nodes
  }

  /** The node whose id is the selection (`nodes.find`), if any. */
  function FindNode(nodes: seq<NodeData>, sel: Option<string>): (r: Option<NodeData>)
    ensures r.Some? <==> sel.Some? && sel.value in Ids(nodes)
    ensures r.Some? ==> r.value in nodes && r.value.id == sel.value
  {
    if sel.None? then None
    else
      var i := IndexOf(Ids(nodes), sel.value);
      if i < 0 then None else Some(nodes[i])
  }

  /** `findIndex` of the selection: -1 when nothing is selected or the id is not a node. */
  function SelectedIndex(nodes: seq<NodeData>, sel: Option<string>): (i: int)
    ensures -1 <= i < |nodes|
    ensures i >= 0 ==> sel == Some(nodes[i].id)
    ensures i == -1 <==> FindNode(nodes, sel).None?
  {
    if sel.None? then -1 else IndexOf(Ids(nodes), sel.value)
  }

  /** The id chosen by the default-selection effect: the first active node, else the first node. */
  function DefaultSelection(nodes: seq<NodeData>): (r: string)
    requires |nodes| > 0
    ensures r in Ids(nodes)
    ensures Active in Statuses(nodes) ==>
      exists i :: 0 <= i < |nodes| && nodes[i].id == r && nodes[i].status == Active &&
        forall j :: 0 <= j < i ==> nodes[j].status != Active
    ensures Active !in Statuses(nodes) ==> r == nodes[0].id
  {
    var i := IndexOf(Statuses(nodes), Active);
    if i >= 0 then
      assert Ids(nodes)[i] == nodes[i].id && Statuses(nodes)[i] == Active;
      assert forall j :: 0 <= j < i ==> nodes[j].status != Active by {
        forall j | 0 <= j < i
          ensures nodes[j].status != Active
        {
          assert Statuses(nodes)[j] == nodes[j].status;
        }
      }
      nodes[i].id
    else
      assert Ids(nodes)[0] == nodes[0].id;
      nodes[0].id
  }

  function RoleDefault(role: RoleId): string {
    DefaultSelection(Nodes(role))
  }

  /** The index after `c` in a cycle of `n`, which is `(c + 1) % n` for `0 <= c < n` (`StepMod`). */
  function Wrap(c: int, n: int): int {
    if c + 1 < n then c + 1 else 0
  }

  lemma StepMod(c: int, n: int)
    requires 0 <= c < n
    ensures (c + 1) % n == Wrap(c, n)
  {
  }

  /** The id a tour tick moves to: the node after the selected one, wrapping; after node 0 when unresolved. */
  function TourNext(nodes: seq<NodeData>, sel: Option<string>): (r: string)
    requires |nodes| > 0
    ensures r in Ids(nodes)
  {
    var i := SelectedIndex(nodes, sel);
    var current := if i == -1 then 0 else i;
    assert Ids(nodes)[Wrap(current, |nodes|)] == nodes[Wrap(current, |nodes|)].id;
    nodes[Wrap(current, |nodes|)].id
  }

  datatype PageState = PageState(role: RoleId, selected: Option<string>, touring: bool)

  /** State after the first render: role `sde`, and the default-selection effect has run. */
  function Mount(): PageState {
    PageState(Sde, Some(RoleDefault(Sde)), false)
  }

  /**
   * A role button: role set, tour stopped. The default-selection effect re-runs only when
   * one of its dependencies (role, tour flag) actually changed.
   */
  function ChooseRole(s: PageState, r: RoleId): PageState {
    var rerun := r != s.role || s.touring;
    PageState(r, if rerun then Some(RoleDefault(r)) else s.selected, false)
  }

  /** The Play/Pause button. Pausing flips the flag to false, so the default effect re-runs. */
  function TogglePlay(s: PageState): PageState {
    if s.touring then PageState(s.role, Some(RoleDefault(s.role)), false)
    else s.(touring := true)
  }

  /** A node click: selects the node, whatever its status, and stops the tour. */
  function ClickNode(s: PageState, id: string): PageState {
    if s.touring then PageState(s.role, Some(RoleDefault(s.role)), false)
    else s.(selected := Some(id))
  }

  /**
   * One firing of the tour interval. The interval closes over `nodes`, the graph rendered
   * for `s.role`; no interval is installed while the tour is off.
   */
  function Tick(nodes: seq<NodeData>, s: PageState): PageState
    requires |nodes| > 0
  {
    if s.touring then s.(selected := Some(TourNext(nodes, s.selected))) else s
  }

  function TickN(nodes: seq<NodeData>, s: PageState, k: nat): PageState
    requires |nodes| > 0
  {
    if k == 0 then s else Tick(nodes, TickN(nodes, s, k - 1))
  }

  /** The mobile close button of the detail panel. */
  function CloseDetails(s: PageState): PageState {
    s.(selected := None)
  }

  /** The node shown in the detail panel; the panel is rendered exactly when this is `Some`. */
  function ActiveNode(s: PageState): Option<NodeData> {
    FindNode(Nodes(s.role), s.selected)
  }

  /** The sidebar's role ids, in display order. */
  function RoleIds(): seq<RoleId> {
    seq(|Roles|, i requires 0 <= i < |Roles| => Roles[i].id)
  }

  /** Every role appears in the sidebar, and no role id appears twice. */
  lemma RolesCoverEveryRole(r: RoleId)
    ensures NoDup(RoleIds()) && exists i :: 0 <= i < |Roles| && Roles[i].id == r
  {
    match r
    case Sde => assert Roles[0].id == r;
    case Frontend => assert Roles[1].id == r;
    case Backend => assert Roles[2].id == r;
    case Fullstack => assert Roles[3].id == r;
    case DataAnalyst => assert Roles[4].id == r;
    case DataScientist => assert Roles[5].id == r;
    case Ml => assert Roles[6].id == r;
    case Devops => assert Roles[7].id == r;
    case Mobile => assert Roles[8].id == r;
    case Uiux => assert Roles[9].id == r;
  }

  /** The default selection is the first active node, wherever it sits. */
  lemma DefaultIsFirstActive(nodes: seq<NodeData>, i: nat)
    requires i < |nodes| && nodes[i].status == Active
    requires forall j :: 0 <= j < i ==> nodes[j].status != Active
    ensures DefaultSelection(nodes) == nodes[i].id
  {
    assert Statuses(nodes)[i] == Active;
  }

  lemma FrontendDefault()
    ensures RoleDefault(Frontend) == "js"
  {
    DefaultIsFirstActive(Nodes(Frontend), 1);
  }

  lemma BackendDefault()
    ensures RoleDefault(Backend) == "db"
  {
    DefaultIsFirstActive(Nodes(Backend), 1);
  }

  lemma SdeDefault()
    ensures RoleDefault(Sde) == "dsa"
  {
    DefaultIsFirstActive(Nodes(Sde), 1);
  }

  /** The default node per graph: `js` for frontend, `db` for backend, `dsa` for every other role. */
  lemma RoleDefaults(r: RoleId)
    ensures RoleDefault(Frontend) == "js"
    ensures RoleDefault(Backend) == "db"
    ensures r != Frontend && r != Backend ==> RoleDefault(r) == "dsa"
  {
    FrontendDefault();
    BackendDefault();
    SdeDefault();
    assert r != Frontend && r != Backend ==> Nodes(r) == Nodes(Sde);
  }

  /** With distinct ids, the node at index `k` is found by its own id. */
  lemma FindNodeAt(nodes: seq<NodeData>, k: nat)
    requires NoDup(Ids(nodes)) && k < |nodes|
    ensures FindNode(nodes, Some(nodes[k].id)) == Some(nodes[k])
    ensures SelectedIndex(nodes, Some(nodes[k].id)) == k
  {
    IndexOfAt(Ids(nodes), k);
  }

  /** A click while idle selects the clicked node, locked ones included, and the panel shows it. */
  lemma ClickWhileIdleShowsNode(s: PageState, k: nat)
    requires !s.touring && k < |Nodes(s.role)|
    ensures !ClickNode(s, Nodes(s.role)[k].id).touring
    ensures ActiveNode(ClickNode(s, Nodes(s.role)[k].id)) == Some(Nodes(s.role)[k])
  {
    RoadmapDataWellFormed(s.role);
    FindNodeAt(Nodes(s.role), k);
  }

  /** A click during a tour stops it and lands on the role default, not on the clicked node. */
  lemma ClickDuringTourResets(s: PageState, id: string)
    requires s.touring
    ensures ClickNode(s, id) == PageState(s.role, Some(RoleDefault(s.role)), false)
  {
  }

  /**
   * Choosing a role stops the tour; the selection becomes the role's default unless the
   * role was already chosen and no tour was running, in which case it is kept.
   */
  lemma ChooseRoleOutcome(s: PageState, r: RoleId)
    ensures !ChooseRole(s, r).touring && ChooseRole(s, r).role == r
    ensures r != s.role || s.touring ==> ChooseRole(s, r).selected == Some(RoleDefault(r))
    ensures r == s.role && !s.touring ==> ChooseRole(s, r).selected == s.selected
  {
  }

  /** Starting the tour keeps the selection; pausing it resets to the role default. */
  lemma TogglePlayOutcome(s: PageState)
    ensures !s.touring ==> TogglePlay(s) == s.(touring := true)
    ensures s.touring ==> TogglePlay(s).selected == Some(RoleDefault(s.role)) && !TogglePlay(s).touring
  {
  }

  /** Index `i + k` in a cycle of `n`, for `i < n` and `k <= n`. */
  function Ahead(i: int, k: int, n: int): int {
    if i + k < n then i + k else i + k - n
  }

  /** From a node that resolves, one tour step goes to the next index, wrapping past the last. */
  lemma TourNextFrom(nodes: seq<NodeData>, i: nat)
    requires NoDup(Ids(nodes)) && i < |nodes|
    ensures TourNext(nodes, Some(nodes[i].id)) == nodes[Wrap(i, |nodes|)].id
  {
    FindNodeAt(nodes, i);
  }

  /** From a selection that does not resolve (closed panel, foreign id) the tour restarts after node 0. */
  lemma TourFromUnresolved(nodes: seq<NodeData>, s: PageState)
    requires |nodes| > 0 && s.touring && FindNode(nodes, s.selected).None?
    ensures Tick(nodes, s) == s.(selected := Some(nodes[Wrap(0, |nodes|)].id))
  {
  }

  lemma TickStep(nodes: seq<NodeData>, s: PageState, k: nat)
    requires |nodes| > 0 && k > 0
    ensures TickN(nodes, s, k) == Tick(nodes, TickN(nodes, s, k - 1))
  {
  }

  /**
   * While touring from the node at index `i`, `k <= n` ticks select the node at `i + k`,
   * wrapping to the front past the last node; the tour keeps running and the role is kept.
   */
  lemma {:induction false} TourPosition(nodes: seq<NodeData>, s: PageState, i: nat, k: nat)
    requires NoDup(Ids(nodes)) && s.touring && i < |nodes| && s.selected == Some(nodes[i].id)
    requires k <= |nodes|
    ensures 0 <= Ahead(i, k, |nodes|) < |nodes|
    ensures TickN(nodes, s, k) == s.(selected := Some(nodes[Ahead(i, k, |nodes|)].id))
  {
    if k > 0 {
      TourPosition(nodes, s, i, k - 1);
      var before := TickN(nodes, s, k - 1);
      var j := Ahead(i, k - 1, |nodes|);
      assert Wrap(j, |nodes|) == Ahead(i, k, |nodes|);
      TourNextFrom(nodes, j);
      assert TickN(nodes, s, k) == Tick(nodes, before);
    }
  }

  /** After one tick per node the tour is back on the node it started from. */
  lemma TourReturnsAfterOneLap(nodes: seq<NodeData>, s: PageState, i: nat)
    requires NoDup(Ids(nodes)) && s.touring && i < |nodes| && s.selected == Some(nodes[i].id)
    ensures TickN(nodes, s, |nodes|) == s
  {
    TourPosition(nodes, s, i, |nodes|);
  }

  /** On a role's own graph, a tour started anywhere is back on its node after one lap. */
  lemma {:induction false} RoleTourReturns(s: PageState, i: nat)
    requires s.touring && i < |Nodes(s.role)| && s.selected == Some(Nodes(s.role)[i].id)
    ensures TickN(Nodes(s.role), s, |Nodes(s.role)|) == s
  {
    RoadmapDataWellFormed(s.role);
    TourReturnsAfterOneLap(Nodes(s.role), s, i);
  }

  /** One firing of the interval closure agrees with one `Tick`, whether or not the start resolved. */
  lemma IntervalStep(nodes: seq<NodeData>, s: PageState, m: nat, current: nat)
    requires NoDup(Ids(nodes)) && s.touring && current < |nodes|
    requires TickN(nodes, s, m).touring
    requires m > 0 ==> TickN(nodes, s, m).selected == Some(nodes[current].id)
    requires m == 0 ==> current == (if SelectedIndex(nodes, s.selected) == -1 then 0 else SelectedIndex(nodes, s.selected))
    ensures TickN(nodes, s, m + 1).touring
    ensures TickN(nodes, s, m + 1).selected == Some(nodes[(current + 1) % |nodes|].id)
  {
    StepMod(current, |nodes|);
    TickStep(nodes, s, m + 1);
    if m > 0 {
      TourNextFrom(nodes, current);
    }
  }

  /** The selections made by the first `m` ticks, in order. */
  function TourTrace(nodes: seq<NodeData>, s: PageState, m: nat): (r: seq<Option<string>>)
    requires |nodes| > 0
    ensures |r| == m
  {
    if m == 0 then [] else TourTrace(nodes, s, m - 1) + [TickN(nodes, s, m).selected]
  }

  function Somes(ids: seq<string>): seq<Option<string>> {
    seq(|ids|, i requires 0 <= i < |ids| => Some(ids[i]))
  }

  /** Recording the next tick's selection extends the trace by one. */
  lemma TraceExtends(nodes: seq<NodeData>, s: PageState, shown: seq<string>, id: string)
    requires |nodes| > 0 && Somes(shown) == TourTrace(nodes, s, |shown|)
    requires TickN(nodes, s, |shown| + 1).selected == Some(id)
    ensures Somes(shown + [id]) == TourTrace(nodes, s, |shown| + 1)
  {
    assert Somes(shown + [id]) == Somes(shown) + [Some(id)];
  }

  /** The closure behind the tour interval, run for `ticks` firings: it keeps its own index. */
  method TourInterval(nodes: seq<NodeData>, s: PageState, ticks: nat) returns (shown: seq<string>)
    requires NoDup(Ids(nodes)) && |nodes| > 0 && s.touring
    ensures Somes(shown) == TourTrace(nodes, s, ticks)
  {
    var currentIndex := SelectedIndex(nodes, s.selected);
    if currentIndex == -1 {
      currentIndex := 0;
    }
    shown := [];
    while |shown| < ticks
      invariant |shown| <= ticks
      invariant 0 <= currentIndex < |nodes|
      invariant TickN(nodes, s, |shown|).touring
      invariant |shown| > 0 ==> TickN(nodes, s, |shown|).selected == Some(nodes[currentIndex].id)
      invariant |shown| == 0 ==> currentIndex == (if SelectedIndex(nodes, s.selected) == -1 then 0 else SelectedIndex(nodes, s.selected))
      invariant Somes(shown) == TourTrace(nodes, s, |shown|)
    {
      var nextIndex := (currentIndex + 1) % |nodes|;
      IntervalStep(nodes, s, |shown|, currentIndex);
      TraceExtends(nodes, s, shown, nodes[nextIndex].id);
      shown := shown + [nodes[nextIndex].id];
      currentIndex := nextIndex;
    }
  }

  /** The component itself: its `useState` variables as fields. */
  class RoadmapPageView {
    var selectedRole: RoleId
    var selectedNodeId: Option<string>
    var isTourPlaying: bool

    function State(): PageState
      reads this
    {
      PageState(selectedRole, selectedNodeId, isTourPlaying)
    }

    constructor ()
      ensures State() == Mount()
    {
      selectedRole := Sde;
      selectedNodeId := Some(DefaultSelection(Nodes(Sde)));
      isTourPlaying := false;
    }

    method SelectRole(r: RoleId)
      modifies this
      ensures State() == ChooseRole(old(State()), r)
    {
      var depsChanged := r != selectedRole || isTourPlaying;
      selectedRole := r;
      isTourPlaying := false;
      if depsChanged {
        selectedNodeId := Some(DefaultSelection(Nodes(r)));
      }
    }

    method PlayButton()
      modifies this
      ensures State() == TogglePlay(old(State()))
    {
      isTourPlaying := !isTourPlaying;
      if !isTourPlaying {
        selectedNodeId := Some(DefaultSelection(Nodes(selectedRole)));
      }
    }

    method NodeClick(id: string)
      modifies this
      ensures State() == ClickNode(old(State()), id)
    {
      var wasPlaying := isTourPlaying;
      selectedNodeId := Some(id);
      isTourPlaying := false;
      if wasPlaying {
        selectedNodeId := Some(DefaultSelection(Nodes(selectedRole)));
      }
    }

    /** One firing of the interval installed for the current role's graph. */
    method TourTick()
      modifies this
      ensures State() == Tick(Nodes(old(selectedRole)), old(State()))
    {
      var nodes := Nodes(selectedRole);
      if isTourPlaying {
        var currentIndex := SelectedIndex(nodes, selectedNodeId);
        if currentIndex == -1 {
          currentIndex := 0;
        }
        StepMod(currentIndex, |nodes|);
        selectedNodeId := Some(nodes[(currentIndex + 1) % |nodes|].id);
      }
    }

    method CloseDetailPanel()
      modifies this
      ensures State() == CloseDetails(old(State()))
    {
      selectedNodeId := None;
    }
  }
}
