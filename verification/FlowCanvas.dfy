/** The rendered canvas of ui/src/lib/workflowFlowGraph.ts: buildRunOverlay and the parts of
    buildFlowGraph that depend on the shape of the graph. */
module FlowCanvas {
  import opened Prelude
  import opened FlowGraph

  datatype NodeRunStatus = Pending | Running | Succeeded | Failed | Skipped | AwaitingHuman

  datatype NodeRun = NodeRun(nodeId: NodeId, attempt: int, status: string)

  datatype RunOverlay = RunOverlay(inProgress: bool, nodeStatus: map<NodeId, NodeRunStatus>)

  function RawStatus(status: string): NodeRunStatus {
    match status
    case "completed" => Succeeded
    case "failed" => Failed
    case "skipped" => Skipped
    case "awaiting_human" => AwaitingHuman
    case _ => Running
  }

  lemma RawStatusMeans(status: string)
    ensures RawStatus(status) == Succeeded <==> status == "completed"
    ensures RawStatus(status) == Failed <==> status == "failed"
    ensures RawStatus(status) == Skipped <==> status == "skipped"
    ensures RawStatus(status) == AwaitingHuman <==> status == "awaiting_human"
    ensures RawStatus(status) != Pending
  {
  }

  /** Row i is the one a viewer sees for its node: no row of that node has a higher attempt,
      and no earlier row the same one. */
  ghost predicate IsLatest(runs: seq<NodeRun>, i: nat) {
    i < |runs| &&
    forall j :: 0 <= j < |runs| && runs[j].nodeId == runs[i].nodeId ==>
      runs[j].attempt <= runs[i].attempt && (j < i ==> runs[j].attempt < runs[i].attempt)
  }

  method BuildRunOverlay(runs: seq<NodeRun>, inProgress: bool) returns (overlay: RunOverlay)
    ensures overlay.inProgress == inProgress
    ensures forall i: nat :: IsLatest(runs, i) ==>
              runs[i].nodeId in overlay.nodeStatus && overlay.nodeStatus[runs[i].nodeId] == RawStatus(runs[i].status)
    ensures forall id :: id in overlay.nodeStatus ==> exists i: nat :: IsLatest(runs, i) && runs[i].nodeId == id
  {
    var latest: map<NodeId, nat> := map[];
    for i := 0 to |runs|
      invariant forall id :: id in latest ==> IsLatest(runs[..i], latest[id]) && runs[latest[id]].nodeId == id
      invariant forall j :: 0 <= j < i ==> runs[j].nodeId in latest
    {
      var id := runs[i].nodeId;
      if id !in latest || runs[i].attempt > runs[latest[id]].attempt {
        latest := latest[id := i];
      }
    }
    assert runs[..|runs|] == runs;
    forall i: nat | IsLatest(runs, i) ensures runs[i].nodeId in latest && latest[runs[i].nodeId] == i {
      assert IsLatest(runs, latest[runs[i].nodeId]);
    }
    var nodeStatus := map id | id in latest :: RawStatus(runs[latest[id]].status);
    return RunOverlay(inProgress, nodeStatus);
  }

  datatype WorkflowNode = WorkflowNode(id: NodeId, nodeType: string)

  datatype Highlight = NotHighlighted | Ancestor | Branch

  datatype FlowNode = FlowNode(id: NodeId, isEntry: bool, mergeHighlight: Highlight, runStatus: Option<NodeRunStatus>)

  datatype FlowEdge = FlowEdge(id: string, source: NodeId, target: NodeId, loop: bool, highlighted: bool, onRunPath: bool)

  datatype Canvas = Canvas(nodes: seq<FlowNode>, edges: seq<FlowEdge>, entryNodeId: Option<NodeId>, hasLoop: bool,
                           mergeFanOut: Option<MergeFanOut>)

  predicate Drawn(nodes: seq<WorkflowNode>, c: Connection) {
    c.from.Some? && (exists n :: n in nodes && n.id == c.from.value) && exists n :: n in nodes && n.id == c.to
  }

  /** The connections drawn as edges: repeats and order kept, none merged. */
  function DrawnOnly(nodes: seq<WorkflowNode>, cs: seq<Connection>): seq<Connection> {
    if cs == [] then []
    else
      var c := cs[|cs| - 1];
      DrawnOnly(nodes, cs[..|cs| - 1]) + if Drawn(nodes, c) then [c] else []
  }

  lemma {:induction false} DrawnOnlyKeeps(nodes: seq<WorkflowNode>, cs: seq<Connection>, c: Connection)
    ensures c in DrawnOnly(nodes, cs) <==> c in cs && Drawn(nodes, c)
  {
    if cs != [] {
      DrawnOnlyKeeps(nodes, cs[..|cs| - 1], c);
    }
  }

  function EntryOf(cs: seq<Connection>): Option<NodeId> {
    if cs == [] then None
    else if cs[0].from.None? then Some(cs[0].to)
    else EntryOf(cs[1..])
  }

  function NodeTypeOf(nodes: seq<WorkflowNode>, id: NodeId): string {
    if nodes == [] then ""
    else if nodes[0].id == id then nodes[0].nodeType
    else NodeTypeOf(nodes[1..], id)
  }

  /** The merge whose fan-out is shown: a selected merge node, while no run is overlaid. */
  predicate ShowsFanOut(nodes: seq<WorkflowNode>, selected: Option<NodeId>, overlay: Option<RunOverlay>) {
    overlay.None? && selected.Some? && selected.value != "" && NodeTypeOf(nodes, selected.value) == "merge"
  }

  function Paint(r: Option<MergeFanOut>, id: NodeId): Highlight {
    if r.None? then NotHighlighted
    else if id == r.value.ancestorId then Ancestor
    else if id in r.value.nodeIds then Branch
    else NotHighlighted
  }

  function StatusOf(overlay: Option<RunOverlay>, id: NodeId): Option<NodeRunStatus> {
    if overlay.None? then None
    else if id in overlay.value.nodeStatus then Some(overlay.value.nodeStatus[id])
    else if overlay.value.inProgress then Some(Pending)
    else None
  }

  /** The entry node is the target of the first connection without a source. */
  lemma {:induction false} EntryIsFirst(cs: seq<Connection>)
    ensures EntryOf(cs).None? <==> forall i :: 0 <= i < |cs| ==> cs[i].from.Some?
    ensures EntryOf(cs).Some? ==>
              exists i :: 0 <= i < |cs| && cs[i].from.None? && cs[i].to == EntryOf(cs).value && forall j :: 0 <= j < i ==> cs[j].from.Some?
  {
    if cs != [] && cs[0].from.Some? {
      var rest := cs[1..];
      EntryIsFirst(rest);
      assert forall i :: 0 <= i < |rest| ==> rest[i] == cs[i + 1];
      if EntryOf(cs).Some? {
        var i :| 0 <= i < |rest| && rest[i].from.None? && rest[i].to == EntryOf(rest).value && forall j :: 0 <= j < i ==> rest[j].from.Some?;
        assert cs[i + 1].from.None? && forall j :: 0 <= j < i + 1 ==> cs[j].from.Some?;
      }
    }
  }

  /** The type of a node is that of the first node of this id. */
  ghost predicate IsMergeNode(nodes: seq<WorkflowNode>, id: NodeId) {
    exists i :: 0 <= i < |nodes| && nodes[i].id == id && nodes[i].nodeType == "merge" && forall j :: 0 <= j < i ==> nodes[j].id != id
  }

  lemma {:induction false} NodeTypeIsFirst(nodes: seq<WorkflowNode>, id: NodeId)
    ensures NodeTypeOf(nodes, id) == "merge" <==> IsMergeNode(nodes, id)
  {
    if nodes != [] && nodes[0].id != id {
      var rest := nodes[1..];
      NodeTypeIsFirst(rest, id);
      assert forall i :: 0 <= i < |rest| ==> rest[i] == nodes[i + 1];
      if IsMergeNode(rest, id) {
        var i :| 0 <= i < |rest| && rest[i].id == id && rest[i].nodeType == "merge" && forall j :: 0 <= j < i ==> rest[j].id != id;
        assert nodes[i + 1].id == id && forall j :: 0 <= j < i + 1 ==> nodes[j].id != id;
      }
      if IsMergeNode(nodes, id) {
        var i :| 0 <= i < |nodes| && nodes[i].id == id && nodes[i].nodeType == "merge" && forall j :: 0 <= j < i ==> nodes[j].id != id;
        assert rest[i - 1].id == id && forall j :: 0 <= j < i - 1 ==> rest[j].id != id;
      }
    }
  }

  /** The fan-out is shown exactly for a selected merge node while no run is. */
  lemma ShowsFanOutExactlyWhen(nodes: seq<WorkflowNode>, selected: Option<NodeId>, overlay: Option<RunOverlay>)
    ensures ShowsFanOut(nodes, selected, overlay) <==>
            overlay == None && selected.Some? && |selected.value| > 0 && IsMergeNode(nodes, selected.value)
  {
    if selected.Some? {
      NodeTypeIsFirst(nodes, selected.value);
    }
  }

  ghost predicate JoinsNodes(nodes: seq<WorkflowNode>, c: Connection) {
    && c.from.Some? && (exists n :: n in nodes && n.id == c.from.value)
    && exists n :: n in nodes && n.id == c.to
  }

  /** ds are the connections of cs between two nodes, each once and in their order; at says where they stand. */
  ghost predicate ListsDrawn(nodes: seq<WorkflowNode>, cs: seq<Connection>, ds: seq<Connection>, at: seq<nat>) {
    && |at| == |ds|
    && (forall k, l :: 0 <= k < l < |at| ==> at[k] < at[l])
    && (forall k :: 0 <= k < |at| ==> at[k] < |cs| && ds[k] == cs[at[k]])
    && (forall i: nat :: i in at <==> i < |cs| && JoinsNodes(nodes, cs[i]))
  }

  lemma OneMoreDrawn(nodes: seq<WorkflowNode>, cs: seq<Connection>, ds: seq<Connection>, at: seq<nat>)
    requires cs != [] && ListsDrawn(nodes, cs[..|cs| - 1], ds, at)
    ensures var c := cs[|cs| - 1];
            if JoinsNodes(nodes, c) then ListsDrawn(nodes, cs, ds + [c], at + [|cs| - 1]) else ListsDrawn(nodes, cs, ds, at)
  {
    var n := |cs| - 1;
    assert forall i: nat :: i in at + [n] <==> i in at || i == n;
  }

  lemma {:induction false} DrawnInOrder(nodes: seq<WorkflowNode>, cs: seq<Connection>) returns (at: seq<nat>)
    ensures ListsDrawn(nodes, cs, DrawnOnly(nodes, cs), at)
  {
    if cs == [] {
      at := [];
    } else {
      var n := |cs| - 1;
      at := DrawnInOrder(nodes, cs[..n]);
      OneMoreDrawn(nodes, cs, DrawnOnly(nodes, cs[..n]), at);
      assert JoinsNodes(nodes, cs[n]) <==> Drawn(nodes, cs[n]);
      if Drawn(nodes, cs[n]) {
        at := at + [n];
      } else {
        assert DrawnOnly(nodes, cs) == DrawnOnly(nodes, cs[..n]);
      }
    }
  }

  /** How a node is marked and which status it shows. */
  lemma MarksOfNode(r: Option<MergeFanOut>, overlay: Option<RunOverlay>, id: NodeId)
    ensures Paint(r, id) == Ancestor <==> r.Some? && r.value.ancestorId == id
    ensures Paint(r, id) == Branch <==> r.Some? && id in r.value.nodeIds && r.value.ancestorId != id
    ensures StatusOf(overlay, id) == None <==> overlay == None || (id !in overlay.value.nodeStatus && !overlay.value.inProgress)
    ensures StatusOf(overlay, id).Some? ==>
              StatusOf(overlay, id).value == if id in overlay.value.nodeStatus then overlay.value.nodeStatus[id] else Pending
  {
  }

  ghost predicate EdgeShows(cs: seq<Connection>, overlay: Option<RunOverlay>, r: Option<MergeFanOut>, c: Connection,
                            e: FlowEdge) {
    && c.from == Some(e.source) && c.to == e.target && c.id == e.id
    && (e.loop <==> LoopEdge(cs, c))
    && (e.highlighted <==> r.Some? && c.id in r.value.edgeIds)
    && (e.onRunPath <==> overlay.Some? && e.source in overlay.value.nodeStatus && e.target in overlay.value.nodeStatus)
  }

  method BuildFlowGraph(nodes: seq<WorkflowNode>, cs: seq<Connection>, selected: Option<NodeId>,
                        overlay: Option<RunOverlay>)
    returns (g: Canvas)
    ensures g.entryNodeId == EntryOf(cs)
    ensures !ShowsFanOut(nodes, selected, overlay) ==> g.mergeFanOut.None?
    ensures ShowsFanOut(nodes, selected, overlay) ==>
              (g.mergeFanOut.None? <==> |DirectPreds(cs, selected.value)| < 2 || forall x :: !FansOut(cs, x, selected.value))
    ensures ShowsFanOut(nodes, selected, overlay) && g.mergeFanOut.Some? ==>
              IsMergeFanOut(cs, selected.value, g.mergeFanOut.value)
    ensures |g.nodes| == |nodes|
    ensures forall i :: 0 <= i < |nodes| ==>
              g.nodes[i] == FlowNode(nodes[i].id, Some(nodes[i].id) == EntryOf(cs), Paint(g.mergeFanOut, nodes[i].id),
                                     StatusOf(overlay, nodes[i].id))
    ensures |g.edges| == |DrawnOnly(nodes, cs)|
    ensures forall i :: 0 <= i < |g.edges| ==> EdgeShows(cs, overlay, g.mergeFanOut, DrawnOnly(nodes, cs)[i], g.edges[i])
    ensures g.hasLoop <==> exists c :: c in DrawnOnly(nodes, cs) && LoopEdge(cs, c)
  {
    var entry := EntryOf(cs);
    var fanOut: Option<MergeFanOut> := None;
    if ShowsFanOut(nodes, selected, overlay) {
      fanOut := FindMergeFanOut(cs, selected.value);
    }
    var flowNodes := seq(|nodes|, i requires 0 <= i < |nodes| =>
      FlowNode(nodes[i].id, Some(nodes[i].id) == entry, Paint(fanOut, nodes[i].id), StatusOf(overlay, nodes[i].id)));
    var drawn := DrawnOnly(nodes, cs);
    var hasLoop, edges := false, [];
    for i := 0 to |drawn|
      invariant |edges| == i
      invariant forall j :: 0 <= j < i ==> EdgeShows(cs, overlay, fanOut, drawn[j], edges[j])
      invariant hasLoop <==> exists j :: 0 <= j < i && LoopEdge(cs, drawn[j])
    {
      var c := drawn[i];
      DrawnOnlyKeeps(nodes, cs, c);
      var loop := IsLoopEdge(cs, c.from, c.to);
      hasLoop := hasLoop || loop;
      var onRunPath := overlay.Some? && c.from.value in overlay.value.nodeStatus && c.to in overlay.value.nodeStatus;
      edges := edges + [FlowEdge(c.id, c.from.value, c.to, loop, fanOut.Some? && c.id in fanOut.value.edgeIds, onRunPath)];
    }
    return Canvas(flowNodes, edges, entry, hasLoop, fanOut);
  }

  ghost predicate NoDangling(nodes: seq<WorkflowNode>, cs: seq<Connection>) {
    forall c :: c in cs && Sourced(c) ==> Drawn(nodes, c)
  }

  ghost predicate ShowsLoop(nodes: seq<WorkflowNode>, cs: seq<Connection>) {
    exists c :: c in DrawnOnly(nodes, cs) && LoopEdge(cs, c)
  }

  /** The canvas never misses a cycle it draws and never reports one that the connections do
      not have; when no connection dangles, it reports a loop exactly when there is a cycle. */
  lemma HasLoopIsCycle(nodes: seq<WorkflowNode>, cs: seq<Connection>)
    ensures HasCycle(DrawnOnly(nodes, cs)) ==> ShowsLoop(nodes, cs)
    ensures ShowsLoop(nodes, cs) ==> HasCycle(cs)
    ensures NoDangling(nodes, cs) ==> (ShowsLoop(nodes, cs) <==> HasCycle(cs))
  {
    var ds := DrawnOnly(nodes, cs);
    forall c ensures c in ds <==> c in cs && Drawn(nodes, c) {
      DrawnOnlyKeeps(nodes, cs, c);
    }
    if HasCycle(ds) {
      var a, w: seq<Connection> :| w != [] && IsWalk(ds, a, w, a);
      WalkInLarger(ds, cs, w[0].to, w[1..], a);
    }
    if ShowsLoop(nodes, cs) {
      var c :| c in ds && LoopEdge(cs, c);
      var w :| IsWalk(cs, c.to, w, c.from.value);
      LinkIsWalk(cs, c);
      WalkConcat(cs, c.from.value, [c], c.to, w, c.from.value);
      assert [c] + w != [];
    }
    if NoDangling(nodes, cs) && HasCycle(cs) {
      var a, w: seq<Connection> :| w != [] && IsWalk(cs, a, w, a);
      assert IsWalk(cs, w[0].to, w[1..], a);
      assert LoopEdge(cs, w[0]);
    }
  }

  /** Whatever dangles, the flag says whether there is a cycle exactly when there is none or one goes over a connection
      that is drawn. */
  lemma HasLoopAgreesExactlyWhen(nodes: seq<WorkflowNode>, cs: seq<Connection>)
    ensures (ShowsLoop(nodes, cs) <==> HasCycle(cs)) <==> !HasCycle(cs) || exists c :: c in cs && Drawn(nodes, c) && OnClosedWalk(cs, c)
  {
    HasLoopIsCycle(nodes, cs);
    forall c ensures c in DrawnOnly(nodes, cs) && LoopEdge(cs, c) <==> c in cs && Drawn(nodes, c) && OnClosedWalk(cs, c) {
      DrawnOnlyKeeps(nodes, cs, c);
      if c in cs {
        LoopEdgeClosesCycle(cs, c);
      }
    }
  }

  /** With a dangling connection both directions of that equivalence fail: a loop is shown on
      an edge of an acyclic drawing, and a cycle among absent nodes is not shown. */
  lemma DanglingLoops()
    ensures var nodes := [WorkflowNode("a", "agent"), WorkflowNode("b", "agent")];
            var cs := [Connection("1", Some("a"), "b"), Connection("2", Some("b"), "gone"), Connection("3", Some("gone"), "a")];
            ShowsLoop(nodes, cs) && !HasCycle(DrawnOnly(nodes, cs))
    ensures var cs := [Connection("1", Some("gone"), "gone")];
            !ShowsLoop([], cs) && HasCycle(cs)
  {
    var nodes := [WorkflowNode("a", "agent"), WorkflowNode("b", "agent")];
    var ab, bg, ga := Connection("1", Some("a"), "b"), Connection("2", Some("b"), "gone"), Connection("3", Some("gone"), "a");
    var cs := [ab, bg, ga];
    var ds := DrawnOnly(nodes, cs);
    assert nodes[0].id == "a" && nodes[1].id == "b";
    assert Drawn(nodes, ab) && !Drawn(nodes, bg) && !Drawn(nodes, ga);
    forall c ensures c in ds <==> c == ab {
      DrawnOnlyKeeps(nodes, cs, c);
    }
    LinkIsWalk(cs, bg);
    LinkIsWalk(cs, ga);
    WalkConcat(cs, "b", [bg], "gone", [ga], "a");
    assert LoopEdge(cs, ab);
    if HasCycle(ds) {
      var a, w: seq<Connection> :| w != [] && IsWalk(ds, a, w, a);
      WalkEndsAtLast(ds, a, w, a);
      WalkSplit(ds, a, w, a, |w| - 1);
      assert false;
    }
    var self := Connection("1", Some("gone"), "gone");
    LinkIsWalk([self], self);
    forall c ensures c !in DrawnOnly([], [self]) {
      DrawnOnlyKeeps([], [self], c);
    }
  }
}
