/** The published phone menu: a graph of steps (packages/phone-agent/src/flow.ts and runtime.ts). */
module CallFlow {
  import opened Options

  type MenuKey = char

  datatype StepKind =
    | Start | PlayMessage | HoursCheck | KeypadMenu | TextLink | TransferCall | Voicemail | AiAgent | HangUp

  datatype MenuOption = MenuOption(key: MenuKey, caption: string)

  datatype FlowNode = FlowNode(
    id: string,
    kind: StepKind,
    options: seq<MenuOption>,
    repeat: Option<int>,
    phone: string)

  datatype FlowEdge = FlowEdge(source: string, target: string, handle: Option<string>)

  datatype FlowGraph = FlowGraph(nodes: seq<FlowNode>, edges: seq<FlowEdge>)

  const MAX_MENU_REPEATS := 3
  const DEFAULT_MENU_REPEATS := 2

  /** The first node with this id. */
  function FindNode(nodes: seq<FlowNode>, id: string): (r: Option<FlowNode>)
    ensures r.Some? ==> r.value in nodes && r.value.id == id
    ensures r.None? ==> forall n :: n in nodes ==> n.id != id
  {
    if nodes == [] then None
    else if nodes[0].id == id then Some(nodes[0])
    else FindNode(nodes[1..], id)
  }

  function FindStart(nodes: seq<FlowNode>): (r: Option<FlowNode>)
    ensures r.Some? ==> r.value in nodes && r.value.kind == Start
    ensures r.None? ==> forall n :: n in nodes ==> n.kind != Start
  {
    if nodes == [] then None
    else if nodes[0].kind == Start then Some(nodes[0])
    else FindStart(nodes[1..])
  }

  function FindEdge(edges: seq<FlowEdge>, source: string, handle: Option<string>): Option<FlowEdge> {
    if edges == [] then None
    else if edges[0].source == source && edges[0].handle == handle then Some(edges[0])
    else FindEdge(edges[1..], source, handle)
  }

  /** The step an output leads to, if that output is connected to a step that exists. */
  function NextNode(graph: FlowGraph, id: string, handle: Option<string>): (r: Option<string>)
    ensures r.Some? ==> FindNode(graph.nodes, r.value).Some?
  {
    match FindEdge(graph.edges, id, handle)
    case None => None
    case Some(edge) =>
      match FindNode(graph.nodes, edge.target)
      case None => None
      case Some(node) => Some(node.id)
  }

  /** The flow starts at the first of its start steps. */
  lemma {:induction false} FirstStartIsFound(nodes: seq<FlowNode>, k: nat)
    requires k < |nodes| && nodes[k].kind == Start && forall j :: 0 <= j < k ==> nodes[j].kind != Start
    ensures FindStart(nodes) == Some(nodes[k])
  {
    if k > 0 { FirstStartIsFound(nodes[1..], k - 1); }
  }

  ghost predicate Connects(edge: FlowEdge, source: string, handle: Option<string>) {
    edge.source == source && edge.handle == handle
  }

  /** The first edge from that step and output. */
  ghost predicate FirstEdge(edges: seq<FlowEdge>, source: string, handle: Option<string>, k: int) {
    && 0 <= k < |edges| && Connects(edges[k], source, handle)
    && forall j :: 0 <= j < k ==> !Connects(edges[j], source, handle)
  }

  /** An output leads to the target of its first edge, when that step exists, and nowhere otherwise. */
  lemma FirstEdgeIsFollowed(graph: FlowGraph, id: string, handle: Option<string>, next: string)
    ensures
      NextNode(graph, id, handle) == Some(next) <==>
      && (exists n :: n in graph.nodes && n.id == next)
      && exists k :: FirstEdge(graph.edges, id, handle, k) && graph.edges[k].target == next
  {
    EdgeIsFirst(graph.edges, id, handle);
    var found := FindEdge(graph.edges, id, handle);
    if k :| FirstEdge(graph.edges, id, handle, k) {
      assert found == Some(graph.edges[k]);
    }
  }

  ghost predicate FirstWith(nodes: seq<FlowNode>, id: string, m: int) {
    0 <= m < |nodes| && nodes[m].id == id && forall j :: 0 <= j < m ==> nodes[j].id != id
  }

  /** The first edge from that step and output targets this step, the first with its id. */
  ghost predicate LeadsTo(graph: FlowGraph, id: string, handle: Option<string>, node: FlowNode) {
    exists k, m ::
      && FirstEdge(graph.edges, id, handle, k) && FirstWith(graph.nodes, graph.edges[k].target, m)
      && graph.nodes[m] == node
  }

  /** `NextNode` and the lookup of its answer find exactly that step. */
  lemma LeadsToIsFound(graph: FlowGraph, id: string, handle: Option<string>)
    ensures NextNode(graph, id, handle).None? ==> forall n :: !LeadsTo(graph, id, handle, n)
    ensures NextNode(graph, id, handle).Some? ==>
              var found := FindNode(graph.nodes, NextNode(graph, id, handle).value);
              found.Some? && forall n :: LeadsTo(graph, id, handle, n) <==> n == found.value
  {
    EdgeIsFirst(graph.edges, id, handle);
    var edge := FindEdge(graph.edges, id, handle);
    if edge.Some? {
      var k :| FirstEdge(graph.edges, id, handle, k);
      NodeIsFirst(graph.nodes, edge.value.target);
      if FindNode(graph.nodes, edge.value.target).Some? {
        var m :| FirstWith(graph.nodes, edge.value.target, m);
        assert LeadsTo(graph, id, handle, graph.nodes[m]);
      }
    }
  }

  lemma {:induction false} NodeIsFirst(nodes: seq<FlowNode>, id: string)
    ensures FindNode(nodes, id).Some? ==> exists m :: FirstWith(nodes, id, m)
    ensures forall m :: FirstWith(nodes, id, m) ==> FindNode(nodes, id) == Some(nodes[m])
  {
    if nodes != [] {
      var rest := nodes[1..];
      NodeIsFirst(rest, id);
      if nodes[0].id == id {
        assert FirstWith(nodes, id, 0);
      } else {
        assert forall m :: 0 <= m < |rest| ==> rest[m] == nodes[m + 1];
        forall m | FirstWith(nodes, id, m) ensures FindNode(nodes, id) == Some(nodes[m]) {
          assert FirstWith(rest, id, m - 1);
        }
        if FindNode(rest, id).Some? {
          var m :| FirstWith(rest, id, m);
          assert FirstWith(nodes, id, m + 1);
        }
      }
    }
  }

  lemma {:induction false} EdgeIsFirst(edges: seq<FlowEdge>, source: string, handle: Option<string>)
    ensures FindEdge(edges, source, handle).Some? ==> exists k :: FirstEdge(edges, source, handle, k)
    ensures forall k :: FirstEdge(edges, source, handle, k) ==> FindEdge(edges, source, handle) == Some(edges[k])
  {
    if edges != [] {
      var rest := edges[1..];
      EdgeIsFirst(rest, source, handle);
      if Connects(edges[0], source, handle) {
        assert FirstEdge(edges, source, handle, 0);
      } else {
        assert forall k :: 0 <= k < |rest| ==> rest[k] == edges[k + 1];
        forall k | FirstEdge(edges, source, handle, k) ensures FindEdge(edges, source, handle) == Some(edges[k]) {
          assert FirstEdge(rest, source, handle, k - 1);
        }
        if FindEdge(rest, source, handle).Some? {
          var k :| FirstEdge(rest, source, handle, k);
          assert FirstEdge(edges, source, handle, k + 1);
        }
      }
    }
  }

  function FindOption(options: seq<MenuOption>, key: MenuKey): (r: Option<MenuOption>)
    ensures r.Some? ==> r.value in options && r.value.key == key
  {
    if options == [] then None
    else if options[0].key == key then Some(options[0])
    else FindOption(options[1..], key)
  }

  function KeyHandle(key: MenuKey): string {
    if key == '*' then "key_star" else if key == '#' then "key_hash" else "key_" + [key]
  }

  predicate IsMenuKey(key: MenuKey) {
    '0' <= key <= '9' || key == '*' || key == '#'
  }

  /** How often a menu's prompt is replayed before its "no input" path. */
  function MenuRepeats(node: FlowNode): (r: int)
    ensures r <= MAX_MENU_REPEATS
  {
    var wanted := if node.repeat.Some? then node.repeat.value else DEFAULT_MENU_REPEATS;
    if wanted < MAX_MENU_REPEATS then wanted else MAX_MENU_REPEATS
  }
}
