/**
 * The durable marketing journey (apps/jobs-cron/src/marketing-journey-workflow.ts): a walk
 * over an arbitrary graph whose steps the platform records by name and replays.
 */
module JourneyWorkflow {
  import opened Options
  import Text

  // ---- Graphs ----

  datatype NodeKind = Trigger | Delay | Action | Condition | Other

  datatype Node = Node(id: string, kind: NodeKind)

  datatype Edge = Edge(source: string, target: string, sourceHandle: string)

  datatype Graph = Graph(nodes: seq<Node>, edges: seq<Edge>)

  const MAX_STEPS := 500

  predicate Named(nodes: seq<Node>, id: string) {
    exists k :: 0 <= k < |nodes| && nodes[k].id == id
  }

  /** The first node with this id. */
  function NodeAt(nodes: seq<Node>, id: string): (node: Node)
    requires Named(nodes, id)
    ensures node in nodes && node.id == id
  {
    if nodes[0].id == id then nodes[0]
    else
      assert Named(nodes[1..], id) by {
        var k :| 0 <= k < |nodes| && nodes[k].id == id;
        assert nodes[1..][k - 1].id == id;
      }
      NodeAt(nodes[1..], id)
  }

  predicate IsTarget(edges: seq<Edge>, id: string) {
    exists k :: 0 <= k < |edges| && edges[k].target == id
  }

  /** The k-th node is the first trigger; without triggers, the first no edge leads to; without either, the first. */
  ghost predicate StartsAt(graph: Graph, k: int)
    requires 0 <= k < |graph.nodes|
  {
    var nodes, edges := graph.nodes, graph.edges;
    || FirstTrigger(nodes, k)
    || (NoTrigger(nodes) && !IsTarget(edges, nodes[k].id) && forall j :: 0 <= j < k ==> IsTarget(edges, nodes[j].id))
    || (NoTrigger(nodes) && k == 0 && forall j :: 0 <= j < |nodes| ==> IsTarget(edges, nodes[j].id))
  }

  ghost predicate FirstTrigger(nodes: seq<Node>, k: int) {
    0 <= k < |nodes| && nodes[k].kind == Trigger && forall j :: 0 <= j < k ==> nodes[j].kind != Trigger
  }

  ghost predicate NoTrigger(nodes: seq<Node>) {
    forall j :: 0 <= j < |nodes| ==> nodes[j].kind != Trigger
  }

  function StartNode(graph: Graph): (node: Node)
    requires graph.nodes != []
    ensures exists k :: 0 <= k < |graph.nodes| && graph.nodes[k] == node && StartsAt(graph, k)
  {
    var isTrigger := (n: Node) => n.kind == Trigger;
    var trigger := First(graph.nodes, isTrigger);
    if trigger.Some? then trigger.value
    else
      var isRoot := (n: Node) => !IsTarget(graph.edges, n.id);
      var root := First(graph.nodes, isRoot);
      assert NoTrigger(graph.nodes) by {
        forall j | 0 <= j < |graph.nodes| ensures graph.nodes[j].kind != Trigger { assert !isTrigger(graph.nodes[j]); }
      }
      assert root.Some? ==>
          exists k :: 0 <= k < |graph.nodes| && graph.nodes[k] == root.value && StartsAt(graph, k) by {
        if root.Some? {
          var k :| 0 <= k < |graph.nodes| && graph.nodes[k] == root.value
            && forall j :: 0 <= j < k ==> !isRoot(graph.nodes[j]);
          assert forall j :: 0 <= j < k ==> IsTarget(graph.edges, graph.nodes[j].id) by {
            forall j | 0 <= j < k ensures IsTarget(graph.edges, graph.nodes[j].id) { assert !isRoot(graph.nodes[j]); }
          }
          assert StartsAt(graph, k);
        }
      }
      assert root.None? ==> StartsAt(graph, 0) by {
        if root.None? {
          forall j | 0 <= j < |graph.nodes| ensures IsTarget(graph.edges, graph.nodes[j].id) {
            assert !isRoot(graph.nodes[j]);
          }
        }
      }
      if root.Some? then root.value else graph.nodes[0]
  }

  function First<T>(items: seq<T>, wanted: T -> bool): (r: Option<T>)
    ensures r.Some? ==> r.value in items && wanted(r.value)
    ensures r.Some? ==>
              exists k :: 0 <= k < |items| && items[k] == r.value && forall j :: 0 <= j < k ==> !wanted(items[j])
    ensures r.None? ==> forall x :: x in items ==> !wanted(x)
  {
    if items == [] then None
    else if wanted(items[0]) then
      assert items[0] == items[0];
      Some(items[0])
    else
      var r := First(items[1..], wanted);
      assert r.Some? ==>
          exists k :: 0 <= k < |items| && items[k] == r.value && forall j :: 0 <= j < k ==> !wanted(items[j]) by {
        if r.Some? {
          var k :| 0 <= k < |items[1..]| && items[1..][k] == r.value
            && forall j :: 0 <= j < k ==> !wanted(items[1..][j]);
          assert items[k + 1] == r.value;
          forall j | 0 <= j < k + 1 ensures !wanted(items[j]) {
            if j > 0 { assert items[j] == items[1..][j - 1]; }
          }
        }
      }
      r
  }

  // ---- Steps ----

  /** What the platform recorded for a step: done, with the condition's result, or given up. */
  datatype StepResult = Done(result: bool) | Threw

  type World = string -> StepResult

  /** The name under which a node's step is recorded; other node types record nothing. */
  function StepName(node: Node): Option<string> {
    match node.kind
    case Trigger => Some("step-" + node.id + "-trigger")
    case Delay => Some("delay-" + node.id)
    case Action => Some("action-" + node.id)
    case Condition => Some("eval-condition-" + node.id)
    case Other => None
  }

  predicate Fails(world: World, node: Node) {
    StepName(node).Some? && world(StepName(node).value).Threw?
  }

  predicate LabelledFor(edge: Edge, result: bool) {
    var handle := Text.Lower(edge.sourceHandle);
    if result then handle == "true" || handle == "yes" || handle == "1" || handle == "success"
    else handle == "false" || handle == "no" || handle == "0" || handle == "failure"
  }

  function Nonempty(id: string): Option<string> {
    if id == "" then None else Some(id)
  }

  /** Where the walk goes from a node whose step is done. */
  function Onward(graph: Graph, world: World, node: Node): Option<string> {
    var out := First(graph.edges, (e: Edge) => e.source == node.id);
    var labelled :=
      if node.kind == Condition && world(StepName(node).value).Done? then
        var result := world(StepName(node).value).result;
        First(graph.edges, (e: Edge) => e.source == node.id && LabelledFor(e, result))
      else None;
    if labelled.Some? then Nonempty(labelled.value.target)
    else if out.Some? then Nonempty(out.value.target)
    else None
  }

  // ---- The walk ----

  datatype End =
    | NoTarget                // no onward target
    | Revisit                 // an edge back to a visited node
    | Missing                 // an edge to a node that does not exist
    | StepCap
    | StepFailed

  predicate AllNamed(graph: Graph, path: seq<string>) {
    forall i :: 0 <= i < |path| ==> Named(graph.nodes, path[i])
  }

  /** A path the walk follows, as far as it goes. */
  ghost predicate Follows(graph: Graph, world: World, path: seq<string>) {
    && AllNamed(graph, path)
    && (forall i :: 0 <= i < |path| ==> path[i] != "")
    && (path != [] ==> graph.nodes != [] && path[0] == StartNode(graph).id)
    && (forall i :: 0 <= i < |path| - 1 ==> Passes(graph, world, path[i], path[i + 1]))
    && (forall i, j :: 0 <= i < j < |path| ==> path[i] != path[j])
    && |path| <= MAX_STEPS
  }

  ghost predicate Passes(graph: Graph, world: World, id: string, next: string)
    requires Named(graph.nodes, id)
  {
    var node := NodeAt(graph.nodes, id);
    !Fails(world, node) && Onward(graph, world, node) == Some(next)
  }

  /** What ends the walk: the last node's step, or where it leads. */
  ghost predicate Ends(graph: Graph, world: World, path: seq<string>, end: End)
    requires Follows(graph, world, path)
  {
    if path == [] then
      if graph.nodes == [] || StartNode(graph).id == "" then end == NoTarget else false
    else
      var node := NodeAt(graph.nodes, path[|path| - 1]);
      if Fails(world, node) then end == StepFailed
      else
        match Onward(graph, world, node)
        case None => end == NoTarget
        case Some(next) =>
          if next in path then end == Revisit
          else if |path| == MAX_STEPS then end == StepCap
          else end == Missing && !Named(graph.nodes, next)
  }

  ghost predicate IsJourney(graph: Graph, world: World, path: seq<string>, end: End) {
    Follows(graph, world, path) && Ends(graph, world, path, end)
  }

  // ---- Recorded steps ----

  function NodeSteps(graph: Graph, path: seq<string>): seq<string>
    requires AllNamed(graph, path)
  {
    if path == [] then []
    else
      var name := StepName(NodeAt(graph.nodes, path[|path| - 1]));
      NodeSteps(graph, path[..|path| - 1]) + if name.Some? then [name.value] else []
  }

  datatype RunResult = Completed(executedSteps: nat) | Rejected

  // ---- The workflow ----

  /** The walk would go on to this node, which it has not visited. */
  ghost predicate LeadsTo(graph: Graph, world: World, path: seq<string>, next: string)
    requires Follows(graph, world, path)
  {
    && next != "" && next !in path
    && if path == [] then graph.nodes != [] && StartNode(graph).id == next
       else Passes(graph, world, path[|path| - 1], next)
  }

  lemma StartIsNamed(graph: Graph)
    requires graph.nodes != []
    ensures Named(graph.nodes, StartNode(graph).id)
  {
    var k :| 0 <= k < |graph.nodes| && graph.nodes[k] == StartNode(graph);
  }

  lemma Starts(graph: Graph, world: World)
    requires graph.nodes != []
    ensures Follows(graph, world, []) && NodeSteps(graph, []) == []
    ensures
      var start := Nonempty(StartNode(graph).id);
      if start.Some? then LeadsTo(graph, world, [], start.value) else Ends(graph, world, [], NoTarget)
  {
  }

  lemma Visits(graph: Graph, world: World, path: seq<string>, next: string)
    requires Follows(graph, world, path) && LeadsTo(graph, world, path, next)
    requires Named(graph.nodes, next) && |path| < MAX_STEPS
    ensures Follows(graph, world, path + [next]) && AllNamed(graph, path) && AllNamed(graph, path + [next])
    ensures
      var name := StepName(NodeAt(graph.nodes, next));
      NodeSteps(graph, path + [next]) == NodeSteps(graph, path) + if name.Some? then [name.value] else []
  {
    hide Passes, StepName, NodeAt, StartNode;
    assert (path + [next])[..|path|] == path;
  }

  /** Where the walk stands after the step of the last node visited. */
  lemma MovesOn(graph: Graph, world: World, path: seq<string>)
    requires Follows(graph, world, path) && path != []
    ensures
      var node := NodeAt(graph.nodes, path[|path| - 1]);
      if Fails(world, node) then Ends(graph, world, path, StepFailed)
      else
        match Onward(graph, world, node)
        case None => Ends(graph, world, path, NoTarget)
        case Some(next) =>
          if next in path then Ends(graph, world, path, Revisit) else LeadsTo(graph, world, path, next)
  {
    hide StepName;
  }

  lemma Stops(graph: Graph, world: World, path: seq<string>, next: string)
    requires Follows(graph, world, path) && LeadsTo(graph, world, path, next)
    ensures |path| == MAX_STEPS ==> Ends(graph, world, path, StepCap)
    ensures |path| < MAX_STEPS && !Named(graph.nodes, next) ==> Ends(graph, world, path, Missing)
  {
    if path == [] { StartIsNamed(graph); }
    hide StartNode, Fails, Onward, Named;
  }

  /** The node loop: it visits one node after the other and runs their steps. */
  method Walk(graph: Graph, world: World) returns (visited: seq<string>, steps: seq<string>, end: End)
    requires graph.nodes != []
    ensures IsJourney(graph, world, visited, end)
    ensures steps == NodeSteps(graph, visited)
  {
    visited, steps, end := [], [], NoTarget;
    Starts(graph, world);
    hide Follows, Ends, LeadsTo, StartNode, Onward, StepName, NodeSteps, Named, AllNamed;
    var currentNodeId := Nonempty(StartNode(graph).id);
    var stepCount := 0;
    while currentNodeId.Some? && stepCount < MAX_STEPS
      invariant stepCount == |visited| <= MAX_STEPS && Follows(graph, world, visited)
      invariant AllNamed(graph, visited) && steps == NodeSteps(graph, visited)
      invariant currentNodeId.Some? ==> LeadsTo(graph, world, visited, currentNodeId.value)
      invariant currentNodeId.None? ==> Ends(graph, world, visited, NoTarget)
      decreases MAX_STEPS - stepCount
    {
      if !Named(graph.nodes, currentNodeId.value) {
        Stops(graph, world, visited, currentNodeId.value);
        return visited, steps, Missing;
      }
      var node := NodeAt(graph.nodes, currentNodeId.value);
      Visits(graph, world, visited, currentNodeId.value);
      visited := visited + [currentNodeId.value];
      stepCount := stepCount + 1;
      MovesOn(graph, world, visited);
      var name := StepName(node);
      if name.Some? {
        steps := steps + [name.value];
        if world(name.value).Threw? { return visited, steps, StepFailed; }
      }
      currentNodeId := Onward(graph, world, node);
      if currentNodeId.Some? && currentNodeId.value in visited { return visited, steps, Revisit; }
    }
    if currentNodeId.None? { return visited, steps, NoTarget; }
    Stops(graph, world, visited, currentNodeId.value);
    return visited, steps, StepCap;
  }

  /** The steps run, in order, are those of the nodes visited and then the closing ones. */
  method Run(graph: Graph, runId: string, world: World)
    returns (result: RunResult, visited: seq<string>, steps: seq<string>, end: End)
    ensures IsJourney(graph, world, visited, end)
    ensures
      result == if end != StepFailed && world("complete-" + runId).Done? then Completed(|visited|) else Rejected
    ensures
      steps == NodeSteps(graph, visited) +
      if end == StepFailed then ["fail-" + runId]
      else if graph.nodes == [] || world("complete-" + runId).Done? then ["complete-" + runId]
      else ["complete-" + runId, "fail-" + runId]
  {
    var complete, fail := "complete-" + runId, "fail-" + runId;
    if graph.nodes == [] {
      visited, steps, end := [], [complete], NoTarget;
      result := if world(complete).Done? then Completed(0) else Rejected;
      return;
    }
    visited, steps, end := Walk(graph, world);
    hide IsJourney, NodeSteps;
    if end != StepFailed {
      steps := steps + [complete];
      if world(complete).Done? { return Completed(|visited|), visited, steps, end; }
    }
    steps := steps + [fail];
    result := Rejected;
  }

  // ---- What every journey is ----

  ghost predicate Distinct(items: seq<string>) {
    forall i, j :: 0 <= i < j < |items| ==> items[i] != items[j]
  }

  lemma {:induction false} DistinctFits(items: seq<string>, ids: set<string>)
    requires Distinct(items) && forall i :: 0 <= i < |items| ==> items[i] in ids
    ensures |items| <= |ids|
  {
    if items != [] {
      var most, last := items[..|items| - 1], items[|items| - 1];
      forall i | 0 <= i < |most| ensures most[i] in ids - {last} { assert most[i] == items[i]; }
      DistinctFits(most, ids - {last});
    }
  }

  function Ids(graph: Graph): set<string> { set k | 0 <= k < |graph.nodes| :: graph.nodes[k].id }

  /** No node is visited twice, so a journey takes no more steps than the graph has node ids. */
  lemma JourneyIsShort(graph: Graph, world: World, path: seq<string>, end: End)
    requires IsJourney(graph, world, path, end)
    ensures |path| <= MAX_STEPS && |path| <= |Ids(graph)|
  {
    forall i | 0 <= i < |path| ensures path[i] in Ids(graph) {
      var k :| 0 <= k < |graph.nodes| && graph.nodes[k].id == path[i];
    }
    DistinctFits(path, Ids(graph));
  }

  ghost predicate Joined(graph: Graph, id: string, next: string) {
    exists k :: 0 <= k < |graph.edges| && graph.edges[k].source == id && graph.edges[k].target == next
  }

  /** Consecutive nodes are joined by an edge of the graph. */
  lemma JourneyFollowsEdges(graph: Graph, world: World, path: seq<string>, end: End, i: nat)
    requires IsJourney(graph, world, path, end) && i + 1 < |path|
    ensures Joined(graph, path[i], path[i + 1])
  {
    BranchesAreFollowed(graph, world, path, end, i);
    hide IsJourney, Takes, GaveUp;
    var m :| FirstNode(graph.nodes, path[i], m) && LeadsTowards(graph, world, graph.nodes[m], path[i + 1]);
    var k: nat :| Takes(graph, world, graph.nodes[m], k) && graph.edges[k].target == path[i + 1];
    TakenExists(graph, world, graph.nodes[m], k);
  }

  /** The labels that stand for a condition's result, in any case. */
  ghost predicate Means(handle: string, result: bool) {
    if result then Text.Lower(handle) in {"true", "yes", "1", "success"}
    else Text.Lower(handle) in {"false", "no", "0", "failure"}
  }

  /** The k-th edge is the first that leaves this node with a label for this result. */
  ghost predicate FirstLabelled(graph: Graph, id: string, result: bool, k: nat) {
    && k < |graph.edges| && graph.edges[k].source == id && Means(graph.edges[k].sourceHandle, result)
    && forall j :: 0 <= j < k ==> !(graph.edges[j].source == id && Means(graph.edges[j].sourceHandle, result))
  }

  lemma LabelsAreKnown(result: bool)
    ensures forall e: Edge :: LabelledFor(e, result) <==> Means(e.sourceHandle, result)
  {
    hide Text.Lower;
  }

  ghost predicate FirstLeaving(graph: Graph, id: string, k: nat) {
    && k < |graph.edges| && graph.edges[k].source == id
    && forall j :: 0 <= j < k ==> graph.edges[j].source != id
  }

  /** The k-th edge is the one to take: a condition's first that is labelled for its result, else the first. */
  ghost predicate Takes(graph: Graph, world: World, node: Node, k: nat) {
    var recorded := world("eval-condition-" + node.id);
    if node.kind == Condition && recorded.Done? && exists j: nat :: FirstLabelled(graph, node.id, recorded.result, j)
    then FirstLabelled(graph, node.id, recorded.result, k)
    else FirstLeaving(graph, node.id, k)
  }

  ghost predicate NoneLeaves(graph: Graph, id: string) {
    forall k :: 0 <= k < |graph.edges| ==> graph.edges[k].source != id
  }

  lemma LabelledEdgeIsFound(graph: Graph, id: string, result: bool)
    ensures
      var found := First(graph.edges, (e: Edge) => e.source == id && LabelledFor(e, result));
      && (forall k: nat :: FirstLabelled(graph, id, result, k) ==> found == Some(graph.edges[k]))
      && (found.Some? ==> exists k: nat :: FirstLabelled(graph, id, result, k))
  {
    hide LabelledFor, Means;
    LabelsAreKnown(result);
    var wanted := (e: Edge) => e.source == id && LabelledFor(e, result);
    forall k: nat | FirstLabelled(graph, id, result, k) ensures First(graph.edges, wanted) == Some(graph.edges[k]) {
      FirstIsFound(graph.edges, wanted, k);
    }
    if First(graph.edges, wanted).Some? {
      var m :| 0 <= m < |graph.edges| && graph.edges[m] == First(graph.edges, wanted).value
        && forall j :: 0 <= j < m ==> !wanted(graph.edges[j]);
      assert FirstLabelled(graph, id, result, m);
    }
  }

  lemma LeavingEdgeIsFound(graph: Graph, id: string)
    ensures
      var found := First(graph.edges, (e: Edge) => e.source == id);
      && (forall k: nat :: FirstLeaving(graph, id, k) ==> found == Some(graph.edges[k]))
      && (found.Some? ==> exists k: nat :: FirstLeaving(graph, id, k))
      && (found.None? <==> NoneLeaves(graph, id))
  {
    var wanted := (e: Edge) => e.source == id;
    forall k: nat | FirstLeaving(graph, id, k) ensures First(graph.edges, wanted) == Some(graph.edges[k]) {
      FirstIsFound(graph.edges, wanted, k);
    }
    if First(graph.edges, wanted).Some? {
      var m :| 0 <= m < |graph.edges| && graph.edges[m] == First(graph.edges, wanted).value
        && forall j :: 0 <= j < m ==> !wanted(graph.edges[j]);
      assert FirstLeaving(graph, id, m);
      assert wanted(graph.edges[m]);
    } else {
      forall k | 0 <= k < |graph.edges| ensures graph.edges[k].source != id { assert !wanted(graph.edges[k]); }
    }
  }

  /** The walk goes where the edge to take leads, and nowhere when none leaves or that one has no target. */
  lemma EdgeTaken(graph: Graph, world: World, node: Node)
    ensures NoneLeaves(graph, node.id) <==> forall k: nat :: !Takes(graph, world, node, k)
    ensures NoneLeaves(graph, node.id) ==> Onward(graph, world, node) == None
    ensures
      forall k: nat :: Takes(graph, world, node, k) ==> Onward(graph, world, node) == Nonempty(graph.edges[k].target)
  {
    hide LabelledFor, FirstLabelled, Means, FirstLeaving;
    LeavingEdgeIsFound(graph, node.id);
    var recorded := world("eval-condition-" + node.id);
    if node.kind == Condition && recorded.Done? {
      LabelledEdgeIsFound(graph, node.id, recorded.result);
      if j: nat :| FirstLabelled(graph, node.id, recorded.result, j) {
        LabelledLeaves(graph, node.id, recorded.result, j);
        assert Takes(graph, world, node, j) && !NoneLeaves(graph, node.id);
        return;
      }
    }
    if k: nat :| FirstLeaving(graph, node.id, k) { assert Takes(graph, world, node, k); }
  }

  lemma LabelledLeaves(graph: Graph, id: string, result: bool, k: nat)
    requires FirstLabelled(graph, id, result, k)
    ensures k < |graph.edges| && graph.edges[k].source == id
  {
  }

  /** The step of a node was given up. */
  ghost predicate GaveUp(world: World, node: Node) {
    match node.kind
    case Trigger => world("step-" + node.id + "-trigger").Threw?
    case Delay => world("delay-" + node.id).Threw?
    case Action => world("action-" + node.id).Threw?
    case Condition => world("eval-condition-" + node.id).Threw?
    case Other => false
  }

  ghost predicate LeadsTowards(graph: Graph, world: World, node: Node, next: string) {
    exists k: nat :: Takes(graph, world, node, k) && graph.edges[k].target == next
  }

  /**
   * A journey takes, from each node whose step is done, the first edge labelled for the result
   * recorded there, or the first edge; and each node it visits is the first with its id.
   */
  lemma BranchesAreFollowed(graph: Graph, world: World, path: seq<string>, end: End, i: nat)
    requires IsJourney(graph, world, path, end) && i + 1 < |path|
    ensures exists m :: FirstNode(graph.nodes, path[i], m) && !GaveUp(world, graph.nodes[m])
              && LeadsTowards(graph, world, graph.nodes[m], path[i + 1])
  {
    var node := NodeAt(graph.nodes, path[i]);
    assert Passes(graph, world, path[i], path[i + 1]);
    assert GaveUp(world, node) <==> Fails(world, node);
    var m := FirstNamed(graph.nodes, path[i]);
    EdgeTaken(graph, world, node);
    hide Takes, Onward, IsJourney, Follows, Ends, NodeAt, GaveUp, NoneLeaves, StepName, Fails;
    assert FirstNode(graph.nodes, path[i], m);
    var k: nat :| Takes(graph, world, node, k);
    TakenExists(graph, world, node, k);
    assert graph.edges[k].target == path[i + 1];
  }

  lemma TakenExists(graph: Graph, world: World, node: Node, k: nat)
    requires Takes(graph, world, node, k)
    ensures k < |graph.edges| && graph.edges[k].source == node.id
  {
  }

  ghost predicate FirstNode(nodes: seq<Node>, id: string, m: int) {
    0 <= m < |nodes| && nodes[m].id == id && forall j :: 0 <= j < m ==> nodes[j].id != id
  }

  /** Why a journey ends, said of its last node alone. */
  lemma EndsAreTrue(graph: Graph, world: World, path: seq<string>, end: End, m: nat)
    requires IsJourney(graph, world, path, end) && path != [] && FirstNode(graph.nodes, path[|path| - 1], m)
    ensures
      var node, ids := graph.nodes[m], Ids(graph);
      && (end == StepFailed <==> GaveUp(world, node))
      && (end == NoTarget <==>
            !GaveUp(world, node) && (NoneLeaves(graph, node.id) || LeadsTowards(graph, world, node, "")))
      && (end == Revisit <==>
            !GaveUp(world, node) && exists next :: LeadsTowards(graph, world, node, next) && next in path)
      && (end == StepCap <==>
            !GaveUp(world, node) && |path| == 500
            && exists next :: LeadsTowards(graph, world, node, next) && next != "" && next !in path)
      && (end == Missing <==>
            !GaveUp(world, node) && |path| < 500
            && exists next :: LeadsTowards(graph, world, node, next) && next != "" && next !in ids)
  {
    var node := graph.nodes[m];
    LastNode(graph, world, path, end, m);
    EdgeTaken(graph, world, node);
    NamedIds(graph);
    hide Takes, Onward, IsJourney, NodeAt, FirstNode, Follows, Ends, Named, GaveUp, NoneLeaves, Ids;
    if k: nat :| Takes(graph, world, node, k) {
      TakenExists(graph, world, node, k);
      var target := graph.edges[k].target;
      assert LeadsTowards(graph, world, node, target);
      forall next | LeadsTowards(graph, world, node, next) ensures Nonempty(next) == Nonempty(target) {}
    }
  }

  lemma NamedIds(graph: Graph)
    ensures forall id :: Named(graph.nodes, id) <==> id in Ids(graph)
  {
  }

  /** The end of a journey, and what its last node leads to. */
  lemma LastNode(graph: Graph, world: World, path: seq<string>, end: End, m: nat)
    requires IsJourney(graph, world, path, end) && path != [] && FirstNode(graph.nodes, path[|path| - 1], m)
    ensures
      var node := graph.nodes[m];
      var next := Onward(graph, world, node);
      && |path| <= 500 && "" !in path && (forall i :: 0 <= i < |path| ==> Named(graph.nodes, path[i]))
      && (end == StepFailed <==> GaveUp(world, node))
      && (end == NoTarget <==> !GaveUp(world, node) && next.None?)
      && (end == Revisit <==> !GaveUp(world, node) && next.Some? && next.value in path)
      && (end == StepCap <==> !GaveUp(world, node) && next.Some? && next.value !in path && |path| == 500)
      && (end == Missing <==>
            !GaveUp(world, node) && next.Some? && |path| < 500 && !Named(graph.nodes, next.value))
  {
    var id := path[|path| - 1];
    assert Named(graph.nodes, id);
    var n := FirstNamed(graph.nodes, id);
    assert m == n;
    var node := graph.nodes[m];
    assert Fails(world, node) <==> GaveUp(world, node);
    hide Onward, StepName, GaveUp, Fails, Passes, StartNode;
  }

  lemma FirstIsFound<T>(items: seq<T>, wanted: T -> bool, k: nat)
    requires k < |items| && wanted(items[k]) && forall j :: 0 <= j < k ==> !wanted(items[j])
    ensures First(items, wanted) == Some(items[k])
  {
    assert items[k] in items;
    var m :| 0 <= m < |items| && items[m] == First(items, wanted).value && forall j :: 0 <= j < m ==> !wanted(items[j]);
  }

  // ---- Step names ----

  lemma NamesDiffer(a: Node, b: Node)
    requires a.id != b.id && StepName(a).Some? && StepName(b).Some?
    ensures StepName(a).value != StepName(b).value
  {
    var s, t := StepName(a).value, StepName(b).value;
    if a.kind == b.kind {
      match a.kind
      case Trigger => assert s[5..|s| - 8] == a.id && t[5..|t| - 8] == b.id;
      case Delay => assert s[6..] == a.id && t[6..] == b.id;
      case Action => assert s[7..] == a.id && t[7..] == b.id;
      case Condition => assert s[15..] == a.id && t[15..] == b.id;
    } else {
      FirstLetter(a);
      FirstLetter(b);
    }
  }

  lemma FirstLetter(node: Node)
    requires StepName(node).Some?
    ensures
      var s := StepName(node).value;
      s != "" && s[0] == match node.kind case Trigger => 's' case Delay => 'd' case Action => 'a' case _ => 'e'
  {
  }

  ghost predicate NameOf(graph: Graph, path: seq<string>, name: string)
    requires AllNamed(graph, path)
  {
    exists i :: 0 <= i < |path| && StepName(NodeAt(graph.nodes, path[i])) == Some(name)
  }

  lemma {:induction false} NodeStepsAreDistinct(graph: Graph, path: seq<string>)
    requires AllNamed(graph, path) && Distinct(path)
    ensures Distinct(NodeSteps(graph, path))
    ensures forall k :: 0 <= k < |NodeSteps(graph, path)| ==> NameOf(graph, path, NodeSteps(graph, path)[k])
  {
    if path != [] {
      var most, last := path[..|path| - 1], path[|path| - 1];
      var node := NodeAt(graph.nodes, last);
      var before, name := NodeSteps(graph, most), StepName(node);
      NodeStepsAreDistinct(graph, most);
      forall k | 0 <= k < |before| ensures NameOf(graph, path, before[k]) && Some(before[k]) != name {
        var i :| 0 <= i < |most| && StepName(NodeAt(graph.nodes, most[i])) == Some(before[k]);
        assert path[i] == most[i];
        if name.Some? { NamesDiffer(NodeAt(graph.nodes, most[i]), node); }
      }
      if name.Some? { assert StepName(NodeAt(graph.nodes, path[|path| - 1])) == Some(name.value); }
    }
  }

  lemma DistinctTogether(items: seq<string>, more: seq<string>)
    requires Distinct(items) && Distinct(more)
    requires forall i, j :: 0 <= i < |items| && 0 <= j < |more| ==> items[i] != more[j]
    ensures Distinct(items + more)
  {
  }

  lemma ClosingNames(runId: string, closing: seq<string>)
    requires closing <= ["complete-" + runId, "fail-" + runId] || closing == ["fail-" + runId]
    ensures Distinct(closing)
    ensures forall j :: 0 <= j < |closing| ==> closing[j] != "" && (closing[j][0] == 'c' || closing[j][0] == 'f')
  {
    assert ("complete-" + runId)[0] == 'c' && ("fail-" + runId)[0] == 'f';
  }

  /** What is recorded for a node follows what was recorded for the nodes before it. */
  lemma StepsAreRecordedInOrder(graph: Graph, path: seq<string>, i: nat, m: nat)
    requires AllNamed(graph, path) && i < |path| && FirstNode(graph.nodes, path[i], m)
    ensures
      var node := graph.nodes[m];
      NodeSteps(graph, path[..i + 1]) == NodeSteps(graph, path[..i]) +
      match node.kind
      case Trigger => ["step-" + node.id + "-trigger"]
      case Delay => ["delay-" + node.id]
      case Action => ["action-" + node.id]
      case Condition => ["eval-condition-" + node.id]
      case Other => []
  {
    var n := FirstNamed(graph.nodes, path[i]);
    assert m == n;
    assert path[..i + 1][..i] == path[..i];
  }

  /** The platform records every step of a run, the closing ones included, under a name of its own. */
  lemma StepsAreNamedOnce(
    graph: Graph, world: World, runId: string, path: seq<string>, end: End, closing: seq<string>)
    requires IsJourney(graph, world, path, end)
    requires closing <= ["complete-" + runId, "fail-" + runId] || closing == ["fail-" + runId]
    ensures Distinct(NodeSteps(graph, path) + closing)
  {
    var steps := NodeSteps(graph, path);
    NodeStepsAreDistinct(graph, path);
    ClosingNames(runId, closing);
    hide NodeSteps, StepName, Distinct, Passes, StartNode, Ends;
    forall i, j | 0 <= i < |steps| && 0 <= j < |closing| ensures steps[i] != closing[j] {
      var k :| 0 <= k < |path| && StepName(NodeAt(graph.nodes, path[k])) == Some(steps[i]);
      FirstLetter(NodeAt(graph.nodes, path[k]));
    }
    DistinctTogether(steps, closing);
  }

  // ---- Replay ----

  ghost predicate Agree(graph: Graph, world: World, world': World, id: string)
    requires Named(graph.nodes, id)
  {
    var name := StepName(NodeAt(graph.nodes, id));
    name.Some? ==> world(name.value) == world'(name.value)
  }

  lemma AgreeingStep(graph: Graph, world: World, world': World, id: string)
    requires Named(graph.nodes, id) && Agree(graph, world, world', id)
    ensures
      var node := NodeAt(graph.nodes, id);
      Fails(world, node) == Fails(world', node) && Onward(graph, world, node) == Onward(graph, world', node)
  {
    hide LabelledFor;
  }

  /**
   * Two runs whose first k steps were recorded alike visit the same nodes, one beyond those
   * k included: what a replay has recorded so far fixes where it is.
   */
  lemma {:induction false} ReplayAgrees(
    graph: Graph, world: World, world': World, p: seq<string>, p': seq<string>, e: End, e': End, k: nat)
    requires IsJourney(graph, world, p, e) && IsJourney(graph, world', p', e') && k <= |p|
    requires forall i :: 0 <= i < k ==> Agree(graph, world, world', p[i])
    ensures k <= |p'| && p'[..k] == p[..k]
    ensures k < |p| ==> k < |p'| && p'[k] == p[k]
  {
    hide Follows, Ends, Passes, StepName, Named;
    if k == 0 {
      SameStart(graph, world, world', p, p', e, e');
    } else {
      ReplayAgrees(graph, world, world', p, p', e, e', k - 1);
      LongerPrefix(p, p', k);
      if k < |p| {
        PathIsNamed(graph, world, p, e, k - 1);
        PassesOn(graph, world, world', p, e, k - 1);
        hide IsJourney, Agree;
        GoesOn(graph, world', p', e', k, p[k], p);
      }
    }
  }

  lemma LongerPrefix(p: seq<string>, p': seq<string>, k: nat)
    requires 0 < k <= |p| && k <= |p'| && p'[..k - 1] == p[..k - 1] && p'[k - 1] == p[k - 1]
    ensures p'[..k] == p[..k]
  {
    assert p[..k] == p[..k - 1] + [p[k - 1]] && p'[..k] == p'[..k - 1] + [p'[k - 1]];
  }

  lemma PathIsNamed(graph: Graph, world: World, p: seq<string>, e: End, i: nat)
    requires IsJourney(graph, world, p, e) && i < |p|
    ensures Named(graph.nodes, p[i])
  {
  }

  lemma SameStart(
    graph: Graph, world: World, world': World, p: seq<string>, p': seq<string>, e: End, e': End)
    requires IsJourney(graph, world, p, e) && IsJourney(graph, world', p', e')
    ensures p != [] ==> p' != [] && p'[0] == p[0]
  {
    hide Passes, StartNode, Onward, StepName;
  }

  lemma PassesOn(graph: Graph, world: World, world': World, p: seq<string>, e: End, k: nat)
    requires IsJourney(graph, world, p, e) && k + 1 < |p|
    requires Named(graph.nodes, p[k]) && Agree(graph, world, world', p[k])
    ensures Passes(graph, world', p[k], p[k + 1]) && Named(graph.nodes, p[k + 1]) && Distinct(p) && |p| <= MAX_STEPS
  {
    assert Passes(graph, world, p[k], p[k + 1]);
    AgreeingStep(graph, world, world', p[k]);
    hide Onward, StepName, StartNode;
  }

  /** A journey does not end where it can pass on to a node it has not visited. */
  lemma GoesOn(graph: Graph, world: World, path: seq<string>, end: End, k: nat, next: string, p: seq<string>)
    requires IsJourney(graph, world, path, end) && 1 <= k <= |path| && k < MAX_STEPS
    requires Passes(graph, world, path[k - 1], next) && Named(graph.nodes, next)
    requires k < |p| && p[..k] == path[..k] && p[k] == next && Distinct(p)
    ensures k < |path| && path[k] == next
  {
    hide StepName, StartNode, LabelledFor, Onward, Fails;
    forall i | 0 <= i < k ensures path[i] != next {
      assert path[i] == path[..k][i] && p[i] == p[..k][i];
    }
    if k < |path| { assert Passes(graph, world, path[k - 1], path[k]); }
  }

  /** A run is a function of the graph and what its steps returned. */
  lemma JourneyIsDetermined(graph: Graph, world: World, p: seq<string>, p': seq<string>, e: End, e': End)
    requires IsJourney(graph, world, p, e) && IsJourney(graph, world, p', e')
    ensures p == p' && e == e'
  {
    ReplayAgrees(graph, world, world, p, p', e, e', |p|);
    ReplayAgrees(graph, world, world, p', p, e', e, |p'|);
    hide IsJourney;
    assert p == p[..|p|] == p'[..|p|] && p' == p'[..|p'|];
    SameEnd(graph, world, p, e, e');
  }

  lemma SameEnd(graph: Graph, world: World, p: seq<string>, e: End, e': End)
    requires IsJourney(graph, world, p, e) && IsJourney(graph, world, p, e')
    ensures e == e'
  {
    hide Onward, StepName, Fails, StartNode, NodeAt;
  }

  // ---- Nodes that share an id ----

  /** The first trigger, with an earlier node of another kind that has its id. */
  ghost predicate Shadowed(nodes: seq<Node>, j: int, k: int) {
    0 <= j < k && FirstTrigger(nodes, k) && nodes[j].id == nodes[k].id
  }

  /**
   * The walk looks its first node up by id. Only a trigger can be passed over for another
   * node, and it is exactly when a node before the first trigger has its id.
   */
  lemma StartNodeIsVisitedExactlyWhen(graph: Graph)
    requires graph.nodes != []
    ensures
      var start := StartNode(graph);
      Named(graph.nodes, start.id) &&
      (NodeAt(graph.nodes, start.id) != start <==> exists j, k :: Shadowed(graph.nodes, j, k))
  {
    StartIsNamed(graph);
    var nodes, start := graph.nodes, StartNode(graph);
    var m := FirstNamed(nodes, start.id);
    var at :| 0 <= at < |nodes| && nodes[at] == start && StartsAt(graph, at);
    hide StartNode;
    if FirstTrigger(nodes, at) {
      if nodes[m] != start { assert Shadowed(nodes, m, at); }
      if j, k :| Shadowed(nodes, j, k) {
        assert k == at;
        assert m <= j;
      }
    } else {
      assert NoTrigger(nodes);
    }
  }

  lemma {:induction false} FirstNamed(nodes: seq<Node>, id: string) returns (m: nat)
    requires Named(nodes, id)
    ensures m < |nodes| && nodes[m] == NodeAt(nodes, id) && forall j :: 0 <= j < m ==> nodes[j].id != id
  {
    if nodes[0].id == id {
      m := 0;
    } else {
      assert Named(nodes[1..], id) by {
        var k :| 0 <= k < |nodes| && nodes[k].id == id;
        assert nodes[1..][k - 1].id == id;
      }
      var m' := FirstNamed(nodes[1..], id);
      m := m' + 1;
      forall j | 0 <= j < m ensures nodes[j].id != id {
        if j > 0 { assert nodes[j] == nodes[1..][j - 1]; }
      }
    }
  }

  /** An action that shares the trigger's id runs in its place. */
  lemma TriggerCanBeShadowed()
    ensures
      var graph := Graph([Node("a", Action), Node("a", Trigger)], []);
      Named(graph.nodes, "a") && StartNode(graph).kind == Trigger && NodeAt(graph.nodes, "a").kind == Action
  {
    var graph := Graph([Node("a", Action), Node("a", Trigger)], []);
    assert graph.nodes[0].id == "a" && graph.nodes[1] in graph.nodes && graph.nodes[1].kind == Trigger;
    var trigger := First(graph.nodes, (n: Node) => n.kind == Trigger);
  }
}
