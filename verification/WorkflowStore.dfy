/** The workflow definition store of server/src/rivulets/api/workflows.py: workflows, their
    nodes and connections, and the requests that create, change and delete them. A request
    is one atomic step; the agent table it consults is a parameter. */
module WorkflowStore {
  import opened Prelude

  type Id = string

  datatype Workflow = Workflow(name: string, description: Option<string>, published: bool,
                               onFailure: Option<Id>, onCall: Option<Id>)

  /** The columns that no rule in this file looks at. */
  datatype Layout = Layout(config: Option<string>, retryMaxAttempts: int, retryBackoffSeconds: int,
                           positionX: Option<real>, positionY: Option<real>)

  datatype Node = Node(workflowId: Id, name: string, nodeType: string, agentId: Option<Id>,
                       childWorkflowId: Option<Id>, layout: Layout)

  /** A condition as it arrives: one of the two accepted shapes, or anything else. */
  datatype Condition = Contains(text: string) | NotContains(text: string) | OtherShape

  datatype Connection = Connection(workflowId: Id, from: Option<Id>, to: Id, condition: Option<Condition>)

  datatype Db = Db(workflows: map<Id, Workflow>, nodes: map<Id, Node>, connections: map<Id, Connection>)

  /** The agents that exist, and those of them that hold an owner-granted scope. */
  datatype Agents = Agents(live: set<Id>, scoped: set<Id>)

  datatype Grant = Owner | Invite

  const NODE_TYPES := ["agent", "summarize", "transform", "conditional", "merge", "human_input", "workflow"]

  const OK := 200
  const BAD_REQUEST := 400
  const FORBIDDEN := 403
  const NOT_FOUND := 404
  const CONFLICT := 409
  const UNPROCESSABLE := 422
  const SERVER_ERROR := 500

  datatype WorkflowPatch = WorkflowPatch(name: Option<string>, description: Option<string>,
                                         onFailure: Option<Option<Id>>, onCall: Option<Option<Id>>)

  datatype NodeBody = NodeBody(name: string, nodeType: string, agentId: Option<Id>, childWorkflowId: Option<Id>,
                               layout: Layout)

  datatype NodePatch = NodePatch(name: Option<string>, agentId: Option<Id>, childWorkflowId: Option<Id>,
                                 config: Option<Option<string>>, retryMaxAttempts: Option<int>,
                                 retryBackoffSeconds: Option<int>, positionX: Option<real>, positionY: Option<real>)

  /** One request; newId is the id the new row gets. */
  datatype Request =
    | CreateWorkflow(newId: Id, name: string, description: Option<string>)
    | UpdateWorkflow(workflowId: Id, patch: WorkflowPatch)
    | DeleteWorkflow(workflowId: Id)
    | PublishWorkflow(workflowId: Id)
    | UnpublishWorkflow(workflowId: Id)
    | CreateNode(workflowId: Id, newId: Id, body: NodeBody)
    | UpdateNode(workflowId: Id, nodeId: Id, changes: NodePatch)
    | DeleteNode(workflowId: Id, nodeId: Id)
    | CreateConnection(workflowId: Id, newId: Id, from: Option<Id>, to: Id, condition: Option<Condition>)
    | UpdateConnection(workflowId: Id, connectionId: Id, newCondition: Option<Option<Condition>>)
    | DeleteConnection(workflowId: Id, connectionId: Id)

  // ----- what the request bodies must look like -----

  predicate NameChar(c: char) {
    'a' <= c <= 'z' || '0' <= c <= '9' || c == '-'
  }

  predicate ValidName(name: string) {
    2 <= |name| <= 64 && 'a' <= name[0] <= 'z' && forall i :: 1 <= i < |name| ==> NameChar(name[i])
  }

  predicate ValidNodeName(name: string) {
    1 <= |name| <= 64
  }

  predicate ValidRetries(attempts: int, backoff: int) {
    0 <= attempts <= 10 && 0 <= backoff <= 3600
  }

  predicate ValidCondition(c: Option<Condition>) {
    c.None? || (!c.value.OtherShape? && c.value.text != "")
  }

  function Or<T>(o: Option<T>, current: T): T {
    if o.Some? then o.value else current
  }

  // ----- nesting -----

  ghost predicate Embeds(db: Db, parent: Id, child: Id) {
    exists n :: n in db.nodes && db.nodes[n].workflowId == parent && db.nodes[n].nodeType == "workflow"
                && db.nodes[n].childWorkflowId == Some(child)
  }

  ghost predicate HasHumanInput(db: Db, w: Id) {
    exists n :: n in db.nodes && db.nodes[n].workflowId == w && db.nodes[n].nodeType == "human_input"
  }

  /** p is a chain of workflows, each embedding the next. */
  ghost predicate Chain(db: Db, p: seq<Id>) {
    p != [] && forall i :: 0 <= i < |p| - 1 ==> Embeds(db, p[i], p[i + 1])
  }

  ghost predicate Nests(db: Db, a: Id, b: Id) {
    exists p :: Chain(db, p) && p[0] == a && p[|p| - 1] == b
  }

  /** A human-input step somewhere in w or in what it embeds, through any number of levels. */
  ghost predicate ContainsHumanInput(db: Db, w: Id) {
    exists b :: Nests(db, w, b) && HasHumanInput(db, b)
  }

  lemma NestsSelf(db: Db, a: Id)
    ensures Nests(db, a, a)
  {
    assert Chain(db, [a]);
  }

  lemma NestsStep(db: Db, a: Id, b: Id, c: Id)
    requires Nests(db, a, b) && Embeds(db, b, c)
    ensures Nests(db, a, c)
  {
    var p :| Chain(db, p) && p[0] == a && p[|p| - 1] == b;
    assert Chain(db, p + [c]);
  }

  lemma {:induction false} ClosedUnderEmbedding(db: Db, S: set<Id>, p: seq<Id>)
    requires Chain(db, p) && p[0] in S
    requires forall a, b :: a in S && Embeds(db, a, b) ==> b in S
    ensures p[|p| - 1] in S
  {
    if |p| > 1 {
      assert Embeds(db, p[0], p[1]);
      var q := p[1..];
      assert forall i :: 0 <= i < |q| ==> q[i] == p[i + 1];
      ClosedUnderEmbedding(db, S, q);
    }
  }

  /** The node rows of one workflow, in whatever order the database returns them. */
  method SelectNodes(db: Db, w: Id) returns (rows: seq<Node>)
    ensures forall r :: r in rows <==> exists n :: n in db.nodes && db.nodes[n] == r && r.workflowId == w
  {
    rows := [];
    var ids := set n | n in db.nodes && db.nodes[n].workflowId == w;
    ghost var done: set<Id> := {};
    while ids != {}
      invariant done !! ids && forall n :: n in done + ids <==> n in db.nodes && db.nodes[n].workflowId == w
      invariant forall r :: r in rows <==> exists n :: n in done && db.nodes[n] == r
      decreases |ids|
    {
      var n :| n in ids;
      rows := rows + [db.nodes[n]];
      done := done + {n};
      ids := ids - {n};
    }
  }

  ghost function Mentioned(db: Db, w: Id): set<Id> {
    {w} + set n | n in db.nodes && db.nodes[n].childWorkflowId.Some? :: db.nodes[n].childWorkflowId.value
  }

  /** The worklist has met only what w nests; what it has finished holds no human-input step
      and embeds only workflows it has finished or queued. */
  ghost predicate Exploring(db: Db, w: Id, seen: set<Id>, frontier: seq<Id>) {
    && (w in seen || w in frontier)
    && (forall a :: a in seen || a in frontier ==> Nests(db, w, a) && a in Mentioned(db, w))
    && (forall a :: a in seen ==> !HasHumanInput(db, a))
    && (forall a, b :: a in seen && Embeds(db, a, b) ==> b in seen || b in frontier)
  }

  /** The steps of one workflow: whether any asks a human, and the workflows they embed. */
  method ScanSteps(rows: seq<Node>) returns (human: bool, children: seq<Id>)
    ensures human <==> exists r :: r in rows && r.nodeType == "human_input"
    ensures !human ==> forall c :: c in children <==>
                                   exists r :: r in rows && r.nodeType == "workflow" && r.childWorkflowId == Some(c)
  {
    children := [];
    for i := 0 to |rows|
      invariant forall r :: r in rows[..i] ==> r.nodeType != "human_input"
      invariant forall c :: c in children <==>
                            exists r :: r in rows[..i] && r.nodeType == "workflow" && r.childWorkflowId == Some(c)
    {
      assert forall r :: r in rows[..i + 1] <==> r in rows[..i] || r == rows[i];
      if rows[i].nodeType == "human_input" {
        return true, children;
      }
      if rows[i].nodeType == "workflow" && rows[i].childWorkflowId.Some? {
        children := children + [rows[i].childWorkflowId.value];
      }
    }
    assert rows[..|rows|] == rows;
    return false, children;
  }

  /** Terminates on every embedding graph, cyclic ones included, and finds a human-input step
      exactly when one is nested at any depth. */
  method WorkflowContainsHumanInput(db: Db, w: Id) returns (found: bool)
    ensures found <==> ContainsHumanInput(db, w)
  {
    var seen: set<Id> := {};
    var frontier := [w];
    NestsSelf(db, w);
    while |frontier| > 0
      invariant Exploring(db, w, seen, frontier)
      decreases |Mentioned(db, w) - seen|, |frontier|
    {
      var current := frontier[|frontier| - 1];
      ghost var was := frontier;
      frontier := frontier[..|frontier| - 1];
      assert forall a :: a in was <==> a in frontier || a == current;
      if current !in seen {
        var rows := SelectNodes(db, current);
        var human, children := ScanSteps(rows);
        if human {
          assert HasHumanInput(db, current);
          return true;
        }
        forall c ensures c in children <==> Embeds(db, current, c) {
        }
        ExploreStep(db, w, seen, was, current, frontier, children);
        FewerLeft(Mentioned(db, w), seen, current);
        seen := seen + {current};
        frontier := frontier + children;
      }
    }
    NothingLeft(db, w, seen);
    return false;
  }

  /** When the frontier is empty, everything nested in w has been seen. */
  lemma NothingLeft(db: Db, w: Id, seen: set<Id>)
    requires Exploring(db, w, seen, [])
    ensures !ContainsHumanInput(db, w)
  {
    if ContainsHumanInput(db, w) {
      var b :| Nests(db, w, b) && HasHumanInput(db, b);
      var p :| Chain(db, p) && p[0] == w && p[|p| - 1] == b;
      ClosedUnderEmbedding(db, seen, p);
      assert false;
    }
  }

  lemma ExploreStep(db: Db, w: Id, seen: set<Id>, was: seq<Id>, current: Id, frontier: seq<Id>, children: seq<Id>)
    requires Exploring(db, w, seen, was) && current in was && !HasHumanInput(db, current)
    requires forall a :: a in was <==> a in frontier || a == current
    requires forall c :: c in children <==> Embeds(db, current, c)
    ensures Exploring(db, w, seen + {current}, frontier + children)
  {
    forall c | c in children ensures Nests(db, w, c) && c in Mentioned(db, w) {
      NestsStep(db, w, current, c);
    }
  }

  lemma FewerLeft(U: set<Id>, seen: set<Id>, x: Id)
    requires x in U && x !in seen
    ensures |U - (seen + {x})| < |U - seen|
  {
    assert U - (seen + {x}) == (U - seen) - {x};
  }

  // ----- the requests, as functions of the state -----

  predicate NameTaken(db: Db, name: string) {
    exists w :: w in db.workflows && db.workflows[w].name == name
  }

  predicate HasEntry(db: Db, w: Id) {
    exists c :: c in db.connections && db.connections[c].workflowId == w && db.connections[c].from.None?
  }

  predicate Locked(db: Db, grant: Grant, w: Id)
    requires w in db.workflows
  {
    grant != Owner && db.workflows[w].published
  }

  predicate OwnNode(db: Db, w: Id, n: Id) {
    n in db.nodes && db.nodes[n].workflowId == w
  }

  predicate OwnConnection(db: Db, w: Id, c: Id) {
    c in db.connections && db.connections[c].workflowId == w
  }

  /** The direct-reference query of create_node. */
  predicate DirectlyEmbedded(db: Db, w: Id) {
    exists n :: n in db.nodes && db.nodes[n].childWorkflowId == Some(w)
  }

  /** The status of _validate_child_workflow, OK when it passes. */
  ghost function ChildStatus(db: Db, w: Id, child: Id): int {
    if child == w then BAD_REQUEST
    else if child !in db.workflows then NOT_FOUND
    else if ContainsHumanInput(db, child) then BAD_REQUEST
    else OK
  }

  function AgentStatus(agents: Agents, grant: Grant, a: Id): int {
    if a !in agents.live then NOT_FOUND
    else if grant != Owner && a in agents.scoped then FORBIDDEN
    else OK
  }

  function CreateWorkflowStep(db: Db, newId: Id, name: string, description: Option<string>): (Db, int) {
    if !ValidName(name) then (db, UNPROCESSABLE)
    else if NameTaken(db, name) then (db, CONFLICT)
    else if newId in db.workflows then (db, SERVER_ERROR)
    else (db.(workflows := db.workflows[newId := Workflow(name, description, false, None, None)]), OK)
  }

  function PatchStatus(db: Db, agents: Agents, grant: Grant, w: Id, p: WorkflowPatch): int {
    if p.name.Some? && !ValidName(p.name.value) then UNPROCESSABLE
    else if w !in db.workflows then NOT_FOUND
    else if grant != Owner && (p.onFailure.Some? || p.onCall.Some?) then FORBIDDEN
    else if Locked(db, grant, w) && p.name.Some? && p.name.value != db.workflows[w].name then FORBIDDEN
    else if p.name.Some? && p.name.value != db.workflows[w].name && NameTaken(db, p.name.value) then CONFLICT
    else if p.onFailure.Some? && p.onFailure.value.Some? && p.onFailure.value.value !in db.workflows then NOT_FOUND
    else if p.onFailure.Some? && p.onFailure.value.Some? && !db.workflows[p.onFailure.value.value].published then BAD_REQUEST
    else if p.onCall.Some? && p.onCall.value.Some? && p.onCall.value.value !in agents.live then NOT_FOUND
    else OK
  }

  function UpdateWorkflowStep(db: Db, agents: Agents, grant: Grant, w: Id, p: WorkflowPatch): (Db, int) {
    var status := PatchStatus(db, agents, grant, w, p);
    if status != OK then (db, status)
    else
      var row := db.workflows[w];
      var description := if p.description.Some? then p.description else row.description;
      var patched := Workflow(Or(p.name, row.name), description, row.published, Or(p.onFailure, row.onFailure), Or(p.onCall, row.onCall));
      (db.(workflows := db.workflows[w := patched]), OK)
  }

  /** A workflow goes with its nodes and connections; references to it elsewhere become null. */
  function WithoutWorkflow(db: Db, w: Id): Db {
    Db(map v | v in db.workflows && v != w ::
         if db.workflows[v].onFailure == Some(w) then db.workflows[v].(onFailure := None) else db.workflows[v],
       map n | n in db.nodes && db.nodes[n].workflowId != w ::
         if db.nodes[n].childWorkflowId == Some(w) then db.nodes[n].(childWorkflowId := None) else db.nodes[n],
       map c | c in db.connections && db.connections[c].workflowId != w :: db.connections[c])
  }

  function DeleteWorkflowStep(db: Db, grant: Grant, w: Id): (Db, int) {
    if grant != Owner then (db, FORBIDDEN)
    else if w !in db.workflows then (db, NOT_FOUND)
    else (WithoutWorkflow(db, w), OK)
  }

  function PublishStep(db: Db, grant: Grant, w: Id): (Db, int) {
    if grant != Owner then (db, FORBIDDEN)
    else if w !in db.workflows then (db, NOT_FOUND)
    else if !HasEntry(db, w) then (db, BAD_REQUEST)
    else (db.(workflows := db.workflows[w := db.workflows[w].(published := true)]), OK)
  }

  function UnpublishStep(db: Db, grant: Grant, w: Id): (Db, int) {
    if grant != Owner then (db, FORBIDDEN)
    else if w !in db.workflows then (db, NOT_FOUND)
    else (db.(workflows := db.workflows[w := db.workflows[w].(published := false)]), OK)
  }

  ghost function CreateNodeStatus(db: Db, agents: Agents, grant: Grant, w: Id, body: NodeBody): int {
    if !ValidNodeName(body.name) || !ValidRetries(body.layout.retryMaxAttempts, body.layout.retryBackoffSeconds)
    then UNPROCESSABLE
    else if w !in db.workflows then NOT_FOUND
    else if Locked(db, grant, w) then FORBIDDEN
    else if body.nodeType !in NODE_TYPES then BAD_REQUEST
    else if body.nodeType == "agent" then
      if body.agentId.None? then BAD_REQUEST else AgentStatus(agents, grant, body.agentId.value)
    else if body.nodeType == "workflow" then
      if body.childWorkflowId.None? then BAD_REQUEST else ChildStatus(db, w, body.childWorkflowId.value)
    else if body.nodeType == "human_input" && DirectlyEmbedded(db, w) then BAD_REQUEST
    else OK
  }

  function NewNode(w: Id, body: NodeBody): Node {
    Node(w, body.name, body.nodeType, if body.nodeType == "agent" then body.agentId else None,
         if body.nodeType == "workflow" then body.childWorkflowId else None, body.layout)
  }

  ghost function CreateNodeStep(db: Db, agents: Agents, grant: Grant, w: Id, newId: Id, body: NodeBody): (Db, int) {
    var status := CreateNodeStatus(db, agents, grant, w, body);
    if status != OK then (db, status)
    else if newId in db.nodes then (db, SERVER_ERROR)
    else (db.(nodes := db.nodes[newId := NewNode(w, body)]), OK)
  }

  ghost function UpdateNodeStatus(db: Db, agents: Agents, grant: Grant, w: Id, n: Id, p: NodePatch): int {
    if (p.name.Some? && !ValidNodeName(p.name.value)) || !ValidRetries(Or(p.retryMaxAttempts, 0), Or(p.retryBackoffSeconds, 0))
    then UNPROCESSABLE
    else if w !in db.workflows then NOT_FOUND
    else if Locked(db, grant, w) then FORBIDDEN
    else if !OwnNode(db, w, n) then NOT_FOUND
    else if p.agentId.Some? && db.nodes[n].nodeType != "agent" then BAD_REQUEST
    else if p.agentId.Some? && AgentStatus(agents, grant, p.agentId.value) != OK then AgentStatus(agents, grant, p.agentId.value)
    else if p.childWorkflowId.Some? && db.nodes[n].nodeType != "workflow" then BAD_REQUEST
    else if p.childWorkflowId.Some? then ChildStatus(db, w, p.childWorkflowId.value)
    else OK
  }

  function PatchedNode(node: Node, p: NodePatch): Node {
    Node(node.workflowId, Or(p.name, node.name), node.nodeType,
         if p.agentId.Some? then p.agentId else node.agentId,
         if p.childWorkflowId.Some? then p.childWorkflowId else node.childWorkflowId,
         Layout(Or(p.config, node.layout.config), Or(p.retryMaxAttempts, node.layout.retryMaxAttempts),
                Or(p.retryBackoffSeconds, node.layout.retryBackoffSeconds),
                if p.positionX.Some? then p.positionX else node.layout.positionX,
                if p.positionY.Some? then p.positionY else node.layout.positionY))
  }

  ghost function UpdateNodeStep(db: Db, agents: Agents, grant: Grant, w: Id, n: Id, p: NodePatch): (Db, int) {
    var status := UpdateNodeStatus(db, agents, grant, w, n, p);
    if status != OK then (db, status)
    else (db.(nodes := db.nodes[n := PatchedNode(db.nodes[n], p)]), OK)
  }

  /** A node goes with every connection at either of its ends. */
  function WithoutNode(db: Db, n: Id): Db {
    db.(nodes := db.nodes - {n},
        connections := map c | c in db.connections && db.connections[c].to != n && db.connections[c].from != Some(n) ::
                         db.connections[c])
  }

  function DeleteNodeStep(db: Db, grant: Grant, w: Id, n: Id): (Db, int) {
    if w !in db.workflows then (db, NOT_FOUND)
    else if Locked(db, grant, w) then (db, FORBIDDEN)
    else if !OwnNode(db, w, n) then (db, NOT_FOUND)
    else (WithoutNode(db, n), OK)
  }

  function CreateConnectionStep(db: Db, grant: Grant, w: Id, newId: Id, from: Option<Id>, to: Id,
                                condition: Option<Condition>): (Db, int)
  {
    if w !in db.workflows then (db, NOT_FOUND)
    else if Locked(db, grant, w) then (db, FORBIDDEN)
    else if from.Some? && !OwnNode(db, w, from.value) then (db, NOT_FOUND)
    else if !OwnNode(db, w, to) then (db, NOT_FOUND)
    else if !ValidCondition(condition) then (db, BAD_REQUEST)
    else if from.None? && HasEntry(db, w) then (db, CONFLICT)
    else if newId in db.connections then (db, SERVER_ERROR)
    else (db.(connections := db.connections[newId := Connection(w, from, to, condition)]), OK)
  }

  function UpdateConnectionStep(db: Db, grant: Grant, w: Id, c: Id, condition: Option<Option<Condition>>): (Db, int) {
    if w !in db.workflows then (db, NOT_FOUND)
    else if Locked(db, grant, w) then (db, FORBIDDEN)
    else if !OwnConnection(db, w, c) then (db, NOT_FOUND)
    else if condition.Some? && !ValidCondition(condition.value) then (db, BAD_REQUEST)
    else (db.(connections := db.connections[c := db.connections[c].(condition := Or(condition, db.connections[c].condition))]), OK)
  }

  function DeleteConnectionStep(db: Db, grant: Grant, w: Id, c: Id): (Db, int) {
    if w !in db.workflows then (db, NOT_FOUND)
    else if Locked(db, grant, w) then (db, FORBIDDEN)
    else if !OwnConnection(db, w, c) then (db, NOT_FOUND)
    else (db.(connections := db.connections - {c}), OK)
  }

  ghost function Step(db: Db, agents: Agents, grant: Grant, r: Request): (Db, int) {
    match r
    case CreateWorkflow(newId, name, description) => CreateWorkflowStep(db, newId, name, description)
    case UpdateWorkflow(w, patch) => UpdateWorkflowStep(db, agents, grant, w, patch)
    case DeleteWorkflow(w) => DeleteWorkflowStep(db, grant, w)
    case PublishWorkflow(w) => PublishStep(db, grant, w)
    case UnpublishWorkflow(w) => UnpublishStep(db, grant, w)
    case CreateNode(w, newId, body) => CreateNodeStep(db, agents, grant, w, newId, body)
    case UpdateNode(w, n, changes) => UpdateNodeStep(db, agents, grant, w, n, changes)
    case DeleteNode(w, n) => DeleteNodeStep(db, grant, w, n)
    case CreateConnection(w, newId, from, to, condition) => CreateConnectionStep(db, grant, w, newId, from, to, condition)
    case UpdateConnection(w, c, condition) => UpdateConnectionStep(db, grant, w, c, condition)
    case DeleteConnection(w, c) => DeleteConnectionStep(db, grant, w, c)
  }

  /** When a workflow may be patched: a valid name that is free or its own, which a guest leaves alone once the workflow is
      published; triggers by the owner only, to a published workflow and a live agent. */
  ghost predicate MayPatch(workflows: map<Id, Workflow>, agents: Agents, grant: Grant, w: Id, p: WorkflowPatch) {
    && (p.name.Some? ==> ValidName(p.name.value)) && w in workflows
    && (grant != Owner ==> p.onFailure.None? && p.onCall.None?)
    && (p.name.Some? && p.name.value != workflows[w].name ==>
          && (grant == Owner || !workflows[w].published)
          && forall v :: v in workflows ==> workflows[v].name != p.name.value)
    && (p.onFailure.Some? && p.onFailure.value.Some? ==>
          p.onFailure.value.value in workflows && workflows[p.onFailure.value.value].published)
    && (p.onCall.Some? && p.onCall.value.Some? ==> p.onCall.value.value in agents.live)
  }

  lemma PatchStatusMeans(db: Db, agents: Agents, grant: Grant, w: Id, p: WorkflowPatch)
    ensures PatchStatus(db, agents, grant, w, p) == OK <==> MayPatch(db.workflows, agents, grant, w, p)
    ensures PatchStatus(db, agents, grant, w, p) == FORBIDDEN ==> grant != Owner
    ensures PatchStatus(db, agents, grant, w, p) == CONFLICT ==> p.name.Some? && NameTaken(db, p.name.value)
  {
  }

  // ----- the requests, as they run -----

  class Store {
    var workflows: map<Id, Workflow>
    var nodes: map<Id, Node>
    var connections: map<Id, Connection>

    constructor ()
      ensures State() == Db(map[], map[], map[])
    {
      workflows, nodes, connections := map[], map[], map[];
    }

    function State(): Db
      reads this
    {
      Db(workflows, nodes, connections)
    }

    method ValidateChildWorkflow(w: Id, child: Id) returns (status: int)
      ensures status == ChildStatus(State(), w, child)
    {
      if child == w {
        return BAD_REQUEST;
      }
      if child !in workflows {
        return NOT_FOUND;
      }
      var human := WorkflowContainsHumanInput(State(), child);
      return if human then BAD_REQUEST else OK;
    }

    method CreateNode(agents: Agents, grant: Grant, w: Id, newId: Id, body: NodeBody) returns (status: int)
      modifies this`nodes
      ensures (State(), status) == CreateNodeStep(old(State()), agents, grant, w, newId, body)
      ensures status == OK <==>
                && 1 <= |body.name| <= 64
                && 0 <= body.layout.retryMaxAttempts <= 10 && 0 <= body.layout.retryBackoffSeconds <= 3600
                && w in workflows && (grant == Owner || !workflows[w].published)
                && body.nodeType in NODE_TYPES && newId !in old(nodes)
                && (body.nodeType == "agent" ==>
                      && body.agentId.Some? && body.agentId.value in agents.live
                      && (grant == Owner || body.agentId.value !in agents.scoped))
                && (body.nodeType == "workflow" ==>
                      && body.childWorkflowId.Some? && body.childWorkflowId.value != w && body.childWorkflowId.value in workflows
                      && !ContainsHumanInput(old(State()), body.childWorkflowId.value))
                && (body.nodeType == "human_input" ==> forall n :: n in old(nodes) ==> old(nodes)[n].childWorkflowId != Some(w))
      ensures status != OK ==> nodes == old(nodes)
      ensures status == OK ==>
                && nodes.Keys == old(nodes.Keys) + {newId} && (forall n :: n in old(nodes) ==> nodes[n] == old(nodes)[n])
                && nodes[newId].workflowId == w && nodes[newId].name == body.name && nodes[newId].nodeType == body.nodeType
                && nodes[newId].agentId == (if body.nodeType == "agent" then body.agentId else None)
                && nodes[newId].childWorkflowId == (if body.nodeType == "workflow" then body.childWorkflowId else None)
                && nodes[newId].layout == body.layout
      ensures status == NOT_FOUND ==>
                || w !in workflows
                || (body.nodeType == "agent" && body.agentId.Some? && body.agentId.value !in agents.live)
                || (body.nodeType == "workflow" && body.childWorkflowId.Some? && body.childWorkflowId.value !in workflows)
      ensures status == FORBIDDEN ==>
                && grant != Owner && w in workflows
                && (workflows[w].published || (body.agentId.Some? && body.agentId.value in agents.scoped))
    {
      if !ValidNodeName(body.name) || !ValidRetries(body.layout.retryMaxAttempts, body.layout.retryBackoffSeconds) {
        return UNPROCESSABLE;
      }
      if w !in workflows {
        return NOT_FOUND;
      }
      if Locked(State(), grant, w) {
        return FORBIDDEN;
      }
      if body.nodeType !in NODE_TYPES {
        return BAD_REQUEST;
      }
      if body.nodeType == "agent" {
        status := if body.agentId.None? then BAD_REQUEST else AgentStatus(agents, grant, body.agentId.value);
        if status != OK {
          return;
        }
      }
      if body.nodeType == "workflow" {
        if body.childWorkflowId.None? {
          return BAD_REQUEST;
        }
        status := ValidateChildWorkflow(w, body.childWorkflowId.value);
        if status != OK {
          return;
        }
      }
      if body.nodeType == "human_input" && DirectlyEmbedded(State(), w) {
        return BAD_REQUEST;
      }
      if newId in nodes {
        return SERVER_ERROR;
      }
      nodes := nodes[newId := NewNode(w, body)];
      return OK;
    }

    /** A change that is refused half-way leaves nothing behind: the row is written only at the commit. */
    method UpdateNode(agents: Agents, grant: Grant, w: Id, n: Id, p: NodePatch) returns (status: int)
      modifies this`nodes
      ensures (State(), status) == UpdateNodeStep(old(State()), agents, grant, w, n, p)
      ensures status == OK <==>
                && (p.name.Some? ==> 1 <= |p.name.value| <= 64)
                && (p.retryMaxAttempts.Some? ==> 0 <= p.retryMaxAttempts.value <= 10)
                && (p.retryBackoffSeconds.Some? ==> 0 <= p.retryBackoffSeconds.value <= 3600)
                && w in workflows && (grant == Owner || !workflows[w].published)
                && n in old(nodes) && old(nodes)[n].workflowId == w
                && (p.agentId.Some? ==>
                      && old(nodes)[n].nodeType == "agent" && p.agentId.value in agents.live
                      && (grant == Owner || p.agentId.value !in agents.scoped))
                && (p.childWorkflowId.Some? ==>
                      && old(nodes)[n].nodeType == "workflow" && p.childWorkflowId.value != w && p.childWorkflowId.value in workflows
                      && !ContainsHumanInput(old(State()), p.childWorkflowId.value))
      ensures status != OK ==> nodes == old(nodes)
      ensures status == OK ==>
                nodes.Keys == old(nodes.Keys) && (forall m :: m in old(nodes) && m != n ==> nodes[m] == old(nodes)[m])
      ensures status == OK ==>
                && nodes[n].workflowId == w && nodes[n].nodeType == old(nodes)[n].nodeType
                && nodes[n].name == (if p.name.Some? then p.name.value else old(nodes)[n].name)
                && nodes[n].agentId == (if p.agentId.Some? then p.agentId else old(nodes)[n].agentId)
                && nodes[n].childWorkflowId == (if p.childWorkflowId.Some? then p.childWorkflowId else old(nodes)[n].childWorkflowId)
      ensures status == OK ==>
                var now, was := nodes[n].layout, old(nodes)[n].layout;
                && now.config == (if p.config.Some? then p.config.value else was.config)
                && now.retryMaxAttempts == (if p.retryMaxAttempts.Some? then p.retryMaxAttempts.value else was.retryMaxAttempts)
                && now.retryBackoffSeconds == (if p.retryBackoffSeconds.Some? then p.retryBackoffSeconds.value else was.retryBackoffSeconds)
                && now.positionX == (if p.positionX.Some? then p.positionX else was.positionX)
                && now.positionY == (if p.positionY.Some? then p.positionY else was.positionY)
    {
      if (p.name.Some? && !ValidNodeName(p.name.value)) ||
         !ValidRetries(Or(p.retryMaxAttempts, 0), Or(p.retryBackoffSeconds, 0)) {
        return UNPROCESSABLE;
      }
      if w !in workflows {
        return NOT_FOUND;
      }
      if Locked(State(), grant, w) {
        return FORBIDDEN;
      }
      if !OwnNode(State(), w, n) {
        return NOT_FOUND;
      }
      var node := nodes[n];
      node := node.(name := Or(p.name, node.name));
      if p.agentId.Some? {
        if node.nodeType != "agent" {
          return BAD_REQUEST;
        }
        status := AgentStatus(agents, grant, p.agentId.value);
        if status != OK {
          return;
        }
        node := node.(agentId := p.agentId);
      }
      if p.childWorkflowId.Some? {
        if node.nodeType != "workflow" {
          return BAD_REQUEST;
        }
        status := ValidateChildWorkflow(w, p.childWorkflowId.value);
        if status != OK {
          return;
        }
        node := node.(childWorkflowId := p.childWorkflowId);
      }
      node := node.(layout := PatchedNode(node, p).layout);
      nodes := nodes[n := node];
      return OK;
    }

    method DeleteNode(grant: Grant, w: Id, n: Id) returns (status: int)
      modifies this`nodes, this`connections
      ensures (State(), status) == DeleteNodeStep(old(State()), grant, w, n)
      ensures status == OK <==> w in workflows && (grant == Owner || !workflows[w].published) && n in old(nodes) && old(nodes)[n].workflowId == w
      ensures status != OK ==> nodes == old(nodes) && connections == old(connections)
      ensures status == OK ==>
                && nodes.Keys == old(nodes.Keys) - {n} && (forall m :: m in nodes ==> nodes[m] == old(nodes)[m])
                && (forall c :: c in connections <==> c in old(connections) && old(connections)[c].from != Some(n) && old(connections)[c].to != n)
                && (forall c :: c in connections ==> connections[c] == old(connections)[c])
      ensures status == FORBIDDEN ==> w in workflows && grant != Owner && workflows[w].published
      ensures status in {OK, NOT_FOUND, FORBIDDEN}
    {
      if w !in workflows {
        return NOT_FOUND;
      }
      if Locked(State(), grant, w) {
        return FORBIDDEN;
      }
      if !OwnNode(State(), w, n) {
        return NOT_FOUND;
      }
      nodes := nodes - {n};
      connections := map c | c in connections && connections[c].to != n && connections[c].from != Some(n) :: connections[c];
      return OK;
    }

    method CreateConnection(grant: Grant, w: Id, newId: Id, from: Option<Id>, to: Id, condition: Option<Condition>)
      returns (status: int)
      modifies this`connections
      ensures (State(), status) == CreateConnectionStep(old(State()), grant, w, newId, from, to, condition)
      ensures status == NOT_FOUND ==>
                w !in workflows || (from.Some? && !OwnNode(old(State()), w, from.value)) || !OwnNode(old(State()), w, to)
      ensures status == OK <==>
                && w in workflows && (grant == Owner || !workflows[w].published)
                && (from.Some? ==> from.value in nodes && nodes[from.value].workflowId == w)
                && to in nodes && nodes[to].workflowId == w
                && (condition.Some? ==> condition.value != OtherShape && condition.value.text != "")
                && (from.None? ==> forall c :: c in old(connections) && old(connections)[c].workflowId == w ==> old(connections)[c].from.Some?)
                && newId !in old(connections)
      ensures status != OK ==> connections == old(connections)
      ensures status == OK ==>
                && connections.Keys == old(connections.Keys) + {newId}
                && (forall c :: c in old(connections) ==> connections[c] == old(connections)[c])
                && connections[newId].workflowId == w && connections[newId].from == from && connections[newId].to == to
                && connections[newId].condition == condition
      ensures status == FORBIDDEN ==> w in workflows && grant != Owner && workflows[w].published
      ensures status == BAD_REQUEST ==> condition.Some? && (condition.value == OtherShape || condition.value.text == "")
      ensures status == CONFLICT ==>
                from.None? && exists c :: c in old(connections) && old(connections)[c].workflowId == w && old(connections)[c].from.None?
    {
      if w !in workflows {
        return NOT_FOUND;
      }
      if Locked(State(), grant, w) {
        return FORBIDDEN;
      }
      if from.Some? && !OwnNode(State(), w, from.value) {
        return NOT_FOUND;
      }
      if !OwnNode(State(), w, to) {
        return NOT_FOUND;
      }
      if !ValidCondition(condition) {
        return BAD_REQUEST;
      }
      if from.None? && HasEntry(State(), w) {
        return CONFLICT;
      }
      if newId in connections {
        return SERVER_ERROR;
      }
      connections := connections[newId := Connection(w, from, to, condition)];
      return OK;
    }

    method UpdateConnection(grant: Grant, w: Id, c: Id, condition: Option<Option<Condition>>) returns (status: int)
      modifies this`connections
      ensures (State(), status) == UpdateConnectionStep(old(State()), grant, w, c, condition)
      ensures status == NOT_FOUND ==> w !in workflows || c !in old(connections) || old(connections)[c].workflowId != w
      ensures status == OK <==>
                && w in workflows && (grant == Owner || !workflows[w].published)
                && c in old(connections) && old(connections)[c].workflowId == w
                && (condition.Some? && condition.value.Some? ==> condition.value.value != OtherShape && condition.value.value.text != "")
      ensures status != OK ==> connections == old(connections)
      ensures status == OK ==>
                && connections.Keys == old(connections.Keys) && (forall d :: d in old(connections) && d != c ==> connections[d] == old(connections)[d])
                && connections[c].workflowId == w && connections[c].from == old(connections)[c].from && connections[c].to == old(connections)[c].to
                && connections[c].condition == (if condition.Some? then condition.value else old(connections)[c].condition)
      ensures status == FORBIDDEN ==> w in workflows && grant != Owner && workflows[w].published
    {
      if w !in workflows {
        return NOT_FOUND;
      }
      if Locked(State(), grant, w) {
        return FORBIDDEN;
      }
      if !OwnConnection(State(), w, c) {
        return NOT_FOUND;
      }
      if condition.Some? && !ValidCondition(condition.value) {
        return BAD_REQUEST;
      }
      connections := connections[c := connections[c].(condition := Or(condition, connections[c].condition))];
      return OK;
    }

    method DeleteConnection(grant: Grant, w: Id, c: Id) returns (status: int)
      modifies this`connections
      ensures (State(), status) == DeleteConnectionStep(old(State()), grant, w, c)
      ensures status == NOT_FOUND ==> w !in workflows || c !in old(connections) || old(connections)[c].workflowId != w
      ensures status == OK <==>
                w in workflows && (grant == Owner || !workflows[w].published) && c in old(connections) && old(connections)[c].workflowId == w
      ensures status != OK ==> connections == old(connections)
      ensures status == OK ==> connections.Keys == old(connections.Keys) - {c} && forall d :: d in connections ==> connections[d] == old(connections)[d]
      ensures status == FORBIDDEN ==> w in workflows && grant != Owner && workflows[w].published
    {
      if w !in workflows {
        return NOT_FOUND;
      }
      if Locked(State(), grant, w) {
        return FORBIDDEN;
      }
      if !OwnConnection(State(), w, c) {
        return NOT_FOUND;
      }
      connections := connections - {c};
      return OK;
    }

    method CreateWorkflow(newId: Id, name: string, description: Option<string>) returns (status: int)
      modifies this`workflows
      ensures (State(), status) == CreateWorkflowStep(old(State()), newId, name, description)
      ensures status == OK <==>
                && 2 <= |name| <= 64 && 'a' <= name[0] <= 'z'
                && (forall i :: 1 <= i < |name| ==> 'a' <= name[i] <= 'z' || '0' <= name[i] <= '9' || name[i] == '-')
                && newId !in old(workflows) && (forall v :: v in old(workflows) ==> old(workflows)[v].name != name)
      ensures status != OK ==> workflows == old(workflows)
      ensures status == OK ==>
                && workflows.Keys == old(workflows.Keys) + {newId} && (forall v :: v in old(workflows) ==> workflows[v] == old(workflows)[v])
                && workflows[newId].name == name && workflows[newId].description == description && !workflows[newId].published
                && workflows[newId].onFailure == None && workflows[newId].onCall == None
      ensures status == CONFLICT ==> exists v :: v in old(workflows) && old(workflows)[v].name == name
    {
      if !ValidName(name) {
        return UNPROCESSABLE;
      }
      if NameTaken(State(), name) {
        return CONFLICT;
      }
      if newId in workflows {
        return SERVER_ERROR;
      }
      workflows := workflows[newId := Workflow(name, description, false, None, None)];
      return OK;
    }

    method UpdateWorkflow(agents: Agents, grant: Grant, w: Id, p: WorkflowPatch) returns (status: int)
      modifies this`workflows
      ensures (State(), status) == UpdateWorkflowStep(old(State()), agents, grant, w, p)
      ensures status == OK <==> MayPatch(old(workflows), agents, grant, w, p)
      ensures status != OK ==> workflows == old(workflows)
      ensures status == OK ==>
                workflows.Keys == old(workflows.Keys) && (forall v :: v in old(workflows) && v != w ==> workflows[v] == old(workflows)[v])
      ensures status == OK ==> workflows[w] == old(workflows)[w].(name := workflows[w].name, description := workflows[w].description,
                                                                  onFailure := workflows[w].onFailure, onCall := workflows[w].onCall)
      ensures status == OK ==>
                && workflows[w].name == (if p.name.Some? then p.name.value else old(workflows)[w].name)
                && workflows[w].description == (if p.description.Some? then p.description else old(workflows)[w].description)
                && workflows[w].onFailure == (if p.onFailure.Some? then p.onFailure.value else old(workflows)[w].onFailure)
                && workflows[w].onCall == (if p.onCall.Some? then p.onCall.value else old(workflows)[w].onCall)
      ensures status == FORBIDDEN ==> grant != Owner
      ensures status == CONFLICT ==> p.name.Some? && exists v :: v in old(workflows) && old(workflows)[v].name == p.name.value
    {
      PatchStatusMeans(State(), agents, grant, w, p);
      if p.name.Some? && !ValidName(p.name.value) {
        return UNPROCESSABLE;
      }
      if w !in workflows {
        return NOT_FOUND;
      }
      var row := workflows[w];
      if grant != Owner {
        if p.onFailure.Some? || p.onCall.Some? {
          return FORBIDDEN;
        }
        if row.published && p.name.Some? && p.name.value != row.name {
          return FORBIDDEN;
        }
      }
      if p.name.Some? && p.name.value != row.name {
        if NameTaken(State(), p.name.value) {
          return CONFLICT;
        }
        row := row.(name := p.name.value);
      }
      if p.description.Some? {
        row := row.(description := p.description);
      }
      if p.onFailure.Some? {
        if p.onFailure.value.Some? {
          if p.onFailure.value.value !in workflows {
            return NOT_FOUND;
          }
          if !workflows[p.onFailure.value.value].published {
            return BAD_REQUEST;
          }
        }
        row := row.(onFailure := p.onFailure.value);
      }
      if p.onCall.Some? {
        if p.onCall.value.Some? && p.onCall.value.value !in agents.live {
          return NOT_FOUND;
        }
        row := row.(onCall := p.onCall.value);
      }
      workflows := workflows[w := row];
      return OK;
    }

    method DeleteWorkflow(grant: Grant, w: Id) returns (status: int)
      modifies this
      ensures (State(), status) == DeleteWorkflowStep(old(State()), grant, w)
      ensures status == FORBIDDEN <==> grant != Owner
      ensures status == NOT_FOUND <==> grant == Owner && w !in old(workflows)
      ensures status == OK <==> grant == Owner && w in old(workflows)
      ensures status != OK ==> State() == old(State())
      ensures status == OK ==>
                && workflows.Keys == old(workflows.Keys) - {w}
                && (forall n :: n in nodes <==> n in old(nodes) && old(nodes)[n].workflowId != w)
                && (forall c :: c in connections <==> c in old(connections) && old(connections)[c].workflowId != w)
      ensures status == OK ==> forall c :: c in connections ==> connections[c] == old(connections)[c]
      ensures status == OK ==> forall n :: n in nodes ==>
                nodes[n] == if old(nodes)[n].childWorkflowId == Some(w) then old(nodes)[n].(childWorkflowId := None) else old(nodes)[n]
      ensures status == OK ==> forall v :: v in workflows ==>
                workflows[v] == if old(workflows)[v].onFailure == Some(w) then old(workflows)[v].(onFailure := None) else old(workflows)[v]
    {
      if grant != Owner {
        return FORBIDDEN;
      }
      if w !in workflows {
        return NOT_FOUND;
      }
      connections := map c | c in connections && connections[c].workflowId != w :: connections[c];
      nodes := map n | n in nodes && nodes[n].workflowId != w ::
        if nodes[n].childWorkflowId == Some(w) then nodes[n].(childWorkflowId := None) else nodes[n];
      workflows := map v | v in workflows && v != w ::
        if workflows[v].onFailure == Some(w) then workflows[v].(onFailure := None) else workflows[v];
      return OK;
    }

    method PublishWorkflow(grant: Grant, w: Id) returns (status: int)
      modifies this`workflows
      ensures (State(), status) == PublishStep(old(State()), grant, w)
      ensures status == FORBIDDEN <==> grant != Owner
      ensures status == NOT_FOUND <==> grant == Owner && w !in old(workflows)
      ensures status == OK <==>
                grant == Owner && w in old(workflows) && exists c :: c in connections && connections[c].workflowId == w && connections[c].from.None?
      ensures status != OK ==> workflows == old(workflows)
      ensures status == OK ==> w in old(workflows) && workflows == old(workflows)[w := old(workflows)[w].(published := true)]
    {
      if grant != Owner {
        return FORBIDDEN;
      }
      if w !in workflows {
        return NOT_FOUND;
      }
      if !HasEntry(State(), w) {
        return BAD_REQUEST;
      }
      workflows := workflows[w := workflows[w].(published := true)];
      return OK;
    }

    method UnpublishWorkflow(grant: Grant, w: Id) returns (status: int)
      modifies this`workflows
      ensures (State(), status) == UnpublishStep(old(State()), grant, w)
      ensures status == FORBIDDEN <==> grant != Owner
      ensures status == NOT_FOUND <==> grant == Owner && w !in old(workflows)
      ensures status == OK <==> grant == Owner && w in old(workflows)
      ensures status != OK ==> workflows == old(workflows)
      ensures status == OK ==> w in old(workflows) && workflows == old(workflows)[w := old(workflows)[w].(published := false)]
    {
      if grant != Owner {
        return FORBIDDEN;
      }
      if w !in workflows {
        return NOT_FOUND;
      }
      workflows := workflows[w := workflows[w].(published := false)];
      return OK;
    }
  }

  /** A request as it is routed: each kind to its own endpoint. */
  method Handle(store: Store, agents: Agents, grant: Grant, r: Request) returns (status: int)
    modifies store
    ensures (store.State(), status) == Step(old(store.State()), agents, grant, r)
  {
    match r
    case CreateWorkflow(newId, name, description) => status := store.CreateWorkflow(newId, name, description);
    case UpdateWorkflow(w, patch) => status := store.UpdateWorkflow(agents, grant, w, patch);
    case DeleteWorkflow(w) => status := store.DeleteWorkflow(grant, w);
    case PublishWorkflow(w) => status := store.PublishWorkflow(grant, w);
    case UnpublishWorkflow(w) => status := store.UnpublishWorkflow(grant, w);
    case CreateNode(w, newId, body) => status := store.CreateNode(agents, grant, w, newId, body);
    case UpdateNode(w, n, changes) => status := store.UpdateNode(agents, grant, w, n, changes);
    case DeleteNode(w, n) => status := store.DeleteNode(grant, w, n);
    case CreateConnection(w, newId, from, to, condition) => status := store.CreateConnection(grant, w, newId, from, to, condition);
    case UpdateConnection(w, c, condition) => status := store.UpdateConnection(grant, w, c, condition);
    case DeleteConnection(w, c) => status := store.DeleteConnection(grant, w, c);
  }

  // ----- what every request keeps -----

  /** Every node belongs to a workflow; only workflow steps embed, and only live workflows. */
  ghost predicate NodesOwned(db: Db) {
    forall n :: n in db.nodes ==>
      && db.nodes[n].workflowId in db.workflows
      && (db.nodes[n].childWorkflowId.Some? ==>
            db.nodes[n].nodeType == "workflow" && db.nodes[n].childWorkflowId.value in db.workflows)
  }

  /** The ends of a connection are nodes of its own workflow. */
  ghost predicate ConnectionsOwned(db: Db) {
    forall c :: c in db.connections ==>
      && OwnNode(db, db.connections[c].workflowId, db.connections[c].to)
      && (db.connections[c].from.Some? ==> OwnNode(db, db.connections[c].workflowId, db.connections[c].from.value))
  }

  ghost predicate Entry(db: Db, c: Id)
    requires c in db.connections
  {
    db.connections[c].from.None?
  }

  ghost predicate OneEntry(db: Db) {
    forall c, d | c in db.connections && d in db.connections ::
      Entry(db, c) && Entry(db, d) && db.connections[c].workflowId == db.connections[d].workflowId ==> c == d
  }

  ghost predicate UniqueNames(db: Db) {
    forall v, w :: v in db.workflows && w in db.workflows && db.workflows[v].name == db.workflows[w].name ==> v == w
  }

  /** Nothing that is nested in a workflow asks a human, at any depth. */
  ghost predicate NestedRunsUnattended(db: Db) {
    forall p, c :: Embeds(db, p, c) ==> !ContainsHumanInput(db, c)
  }

  ghost predicate Consistent(db: Db) {
    NodesOwned(db) && ConnectionsOwned(db) && OneEntry(db) && UniqueNames(db) && NestedRunsUnattended(db)
  }

  /** "A direct-reference query suffices for the transitive case": a workflow is nested
      somewhere, at any depth, exactly when some node names it. */
  lemma DirectQuerySuffices(db: Db, w: Id)
    requires NodesOwned(db)
    ensures DirectlyEmbedded(db, w) <==> exists p, c :: Embeds(db, p, c) && Nests(db, c, w)
  {
    if DirectlyEmbedded(db, w) {
      var n :| n in db.nodes && db.nodes[n].childWorkflowId == Some(w);
      assert Embeds(db, db.nodes[n].workflowId, w);
      NestsSelf(db, w);
    }
    if p, c :| Embeds(db, p, c) && Nests(db, c, w) {
      var q :| Chain(db, q) && q[0] == c && q[|q| - 1] == w;
      if |q| > 1 {
        assert Embeds(db, q[|q| - 2], q[|q| - 2 + 1]);
      }
    }
  }

  lemma FewerStepsAskLess(db: Db, next: Db, c: Id)
    requires forall a, b :: Embeds(next, a, b) ==> Embeds(db, a, b)
    requires forall a :: HasHumanInput(next, a) ==> HasHumanInput(db, a)
    ensures ContainsHumanInput(next, c) ==> ContainsHumanInput(db, c)
  {
    if b :| Nests(next, c, b) && HasHumanInput(next, b) {
      var q :| Chain(next, q) && q[0] == c && q[|q| - 1] == b;
      assert Chain(db, q);
      assert Nests(db, c, b);
    }
  }

  /** Fewer steps cannot make a nested workflow ask a human. */
  lemma FewerStepsStayUnattended(db: Db, next: Db)
    requires NestedRunsUnattended(db)
    requires forall a, b :: Embeds(next, a, b) ==> Embeds(db, a, b)
    requires forall a :: HasHumanInput(next, a) ==> HasHumanInput(db, a)
    ensures NestedRunsUnattended(next)
  {
    forall p, c | Embeds(next, p, c) ensures !ContainsHumanInput(next, c) {
      FewerStepsAskLess(db, next, c);
    }
  }

  /** Replacing or adding a node changes what its workflow embeds by that node only. */
  lemma PutNode(db: Db, n: Id, node: Node, next: Db)
    requires next == db.(nodes := db.nodes[n := node])
    ensures forall a, b :: Embeds(next, a, b) ==>
              Embeds(db, a, b) || (a == node.workflowId && node.nodeType == "workflow" && node.childWorkflowId == Some(b))
    ensures forall a :: HasHumanInput(next, a) ==>
              HasHumanInput(db, a) || (a == node.workflowId && node.nodeType == "human_input")
  {
  }

  /** A chain that may use the new edge from parent to child either does not, or ends in a
      stretch from child that does not. */
  lemma {:induction false} LastNewEdge(db: Db, next: Db, parent: Id, child: Id, p: seq<Id>) returns (q: seq<Id>)
    requires forall a, b :: Embeds(next, a, b) ==> Embeds(db, a, b) || (a == parent && b == child)
    requires Chain(next, p)
    ensures Chain(db, q) && q[|q| - 1] == p[|p| - 1] && (q[0] == p[0] || q[0] == child)
  {
    if |p| == 1 {
      q := p;
    } else {
      var rest := p[1..];
      assert forall i :: 0 <= i < |rest| ==> rest[i] == p[i + 1];
      q := LastNewEdge(db, next, parent, child, rest);
      if q[0] != child {
        assert Embeds(next, p[0], p[1]);
        q := [p[0]] + q;
      }
    }
  }

  /** What asks a human after embedding child asked before, or child did. */
  lemma EmbeddingAsksNoMore(db: Db, next: Db, parent: Id, child: Id, c: Id)
    requires forall a, b :: Embeds(next, a, b) ==> Embeds(db, a, b) || (a == parent && b == child)
    requires forall a :: HasHumanInput(next, a) ==> HasHumanInput(db, a)
    ensures ContainsHumanInput(next, c) ==> ContainsHumanInput(db, c) || ContainsHumanInput(db, child)
  {
    if b :| Nests(next, c, b) && HasHumanInput(next, b) {
      var q :| Chain(next, q) && q[0] == c && q[|q| - 1] == b;
      var r := LastNewEdge(db, next, parent, child, q);
      assert Nests(db, r[0], b);
    }
  }

  /** Embedding a workflow that has been checked keeps nested runs unattended. */
  lemma EmbeddingStaysUnattended(db: Db, next: Db, parent: Id, child: Id)
    requires NestedRunsUnattended(db) && !ContainsHumanInput(db, child)
    requires forall a, b :: Embeds(next, a, b) ==> Embeds(db, a, b) || (a == parent && b == child)
    requires forall a :: HasHumanInput(next, a) ==> HasHumanInput(db, a)
    ensures NestedRunsUnattended(next)
  {
    forall p, c | Embeds(next, p, c) ensures !ContainsHumanInput(next, c) {
      EmbeddingAsksNoMore(db, next, parent, child, c);
    }
  }

  lemma AskingReachesNesters(db: Db, next: Db, w: Id, c: Id)
    requires forall a, b :: Embeds(next, a, b) ==> Embeds(db, a, b)
    requires forall a :: HasHumanInput(next, a) ==> HasHumanInput(db, a) || a == w
    ensures ContainsHumanInput(next, c) ==> ContainsHumanInput(db, c) || Nests(db, c, w)
  {
    if b :| Nests(next, c, b) && HasHumanInput(next, b) {
      var q :| Chain(next, q) && q[0] == c && q[|q| - 1] == b;
      assert Chain(db, q);
      assert Nests(db, c, b);
    }
  }

  /** A human-input step in a workflow that nothing names keeps nested runs unattended. */
  lemma AskingStaysUnattended(db: Db, next: Db, w: Id)
    requires NodesOwned(db) && NestedRunsUnattended(db) && !DirectlyEmbedded(db, w)
    requires forall a, b :: Embeds(next, a, b) ==> Embeds(db, a, b)
    requires forall a :: HasHumanInput(next, a) ==> HasHumanInput(db, a) || a == w
    ensures NestedRunsUnattended(next)
  {
    DirectQuerySuffices(db, w);
    forall p, c | Embeds(next, p, c) ensures !ContainsHumanInput(next, c) {
      AskingReachesNesters(db, next, w, c);
    }
  }

  lemma CreateNodeKeeps(db: Db, agents: Agents, grant: Grant, w: Id, newId: Id, body: NodeBody)
    requires Consistent(db)
    ensures Consistent(CreateNodeStep(db, agents, grant, w, newId, body).0)
  {
    var (next, status) := CreateNodeStep(db, agents, grant, w, newId, body);
    if status == OK {
      var node := NewNode(w, body);
      PutNode(db, newId, node, next);
      if node.nodeType == "workflow" {
        EmbeddingStaysUnattended(db, next, w, body.childWorkflowId.value);
      } else if node.nodeType == "human_input" {
        AskingStaysUnattended(db, next, w);
      } else {
        FewerStepsStayUnattended(db, next);
      }
    }
  }

  /** A patch can make a node embed another workflow; it cannot make it ask a human. */
  lemma PatchNode(db: Db, n: Id, p: NodePatch, next: Db)
    requires n in db.nodes && next == db.(nodes := db.nodes[n := PatchedNode(db.nodes[n], p)])
    ensures forall a, b :: Embeds(next, a, b) ==>
              Embeds(db, a, b) || (p.childWorkflowId.Some? && a == db.nodes[n].workflowId && b == p.childWorkflowId.value)
    ensures forall a :: HasHumanInput(next, a) ==> HasHumanInput(db, a)
  {
    PutNode(db, n, PatchedNode(db.nodes[n], p), next);
  }

  lemma UpdateNodeKeeps(db: Db, agents: Agents, grant: Grant, w: Id, n: Id, p: NodePatch)
    requires Consistent(db)
    ensures Consistent(UpdateNodeStep(db, agents, grant, w, n, p).0)
  {
    var (next, status) := UpdateNodeStep(db, agents, grant, w, n, p);
    if status == OK {
      PatchNode(db, n, p, next);
      if p.childWorkflowId.Some? {
        EmbeddingStaysUnattended(db, next, w, p.childWorkflowId.value);
      } else {
        FewerStepsStayUnattended(db, next);
      }
    }
  }

  lemma DeleteNodeKeeps(db: Db, grant: Grant, w: Id, n: Id)
    requires Consistent(db)
    ensures Consistent(DeleteNodeStep(db, grant, w, n).0)
  {
    FewerStepsStayUnattended(db, DeleteNodeStep(db, grant, w, n).0);
  }

  /** Of a deleted workflow nothing is left: no node, no connection, no reference; all other rows stay, but for the
      references they had to it. */
  lemma DeletedWorkflowIsGone(db: Db, w: Id)
    ensures var next := DeleteWorkflowStep(db, Owner, w).0;
            && w !in next.workflows
            && (w in db.workflows ==> forall n :: !OwnNode(next, w, n) && !OwnConnection(next, w, n))
            && (w in db.workflows ==> forall n :: n in next.nodes ==> next.nodes[n].childWorkflowId != Some(w))
            && (w in db.workflows ==> forall v :: v in next.workflows ==> next.workflows[v].onFailure != Some(w))
            && (forall v :: v in db.workflows && v != w ==>
                  v in next.workflows && next.workflows[v].(onFailure := None) == db.workflows[v].(onFailure := None))
            && (forall n :: n in db.nodes && db.nodes[n].workflowId != w ==>
                  n in next.nodes && next.nodes[n].(childWorkflowId := None) == db.nodes[n].(childWorkflowId := None))
            && (forall c :: c in db.connections && db.connections[c].workflowId != w ==>
                  c in next.connections && next.connections[c] == db.connections[c])
  {
  }

  lemma WithoutWorkflowEmbedsLess(db: Db, w: Id)
    ensures forall a, b :: Embeds(WithoutWorkflow(db, w), a, b) ==> Embeds(db, a, b)
    ensures forall a :: HasHumanInput(WithoutWorkflow(db, w), a) ==> HasHumanInput(db, a)
  {
    var next := WithoutWorkflow(db, w);
    forall a, b | Embeds(next, a, b) ensures Embeds(db, a, b) {
      var n :| n in next.nodes && next.nodes[n].workflowId == a && next.nodes[n].nodeType == "workflow"
               && next.nodes[n].childWorkflowId == Some(b);
      assert n in db.nodes && db.nodes[n].childWorkflowId == Some(b);
    }
  }

  lemma WithoutWorkflowOwned(db: Db, w: Id)
    requires NodesOwned(db) && ConnectionsOwned(db)
    ensures NodesOwned(WithoutWorkflow(db, w)) && ConnectionsOwned(WithoutWorkflow(db, w))
  {
  }

  lemma WithoutWorkflowUnique(db: Db, w: Id)
    requires OneEntry(db) && UniqueNames(db)
    ensures OneEntry(WithoutWorkflow(db, w)) && UniqueNames(WithoutWorkflow(db, w))
  {
    var next := WithoutWorkflow(db, w);
    forall c, d | c in next.connections && d in next.connections && Entry(next, c) && Entry(next, d)
                  && next.connections[c].workflowId == next.connections[d].workflowId
      ensures c == d
    {
      assert Entry(db, c) && Entry(db, d);
    }
  }

  lemma DeleteWorkflowKeeps(db: Db, grant: Grant, w: Id)
    requires Consistent(db)
    ensures Consistent(DeleteWorkflowStep(db, grant, w).0)
  {
    if DeleteWorkflowStep(db, grant, w).1 == OK {
      WithoutWorkflowEmbedsLess(db, w);
      FewerStepsStayUnattended(db, WithoutWorkflow(db, w));
      WithoutWorkflowOwned(db, w);
      WithoutWorkflowUnique(db, w);
    }
  }

  /** A request that leaves the nodes alone keeps nested runs unattended. */
  lemma SameNodesKeep(db: Db, next: Db)
    requires NodesOwned(db) && NestedRunsUnattended(db)
    requires next.nodes == db.nodes && next.workflows.Keys >= db.workflows.Keys
    ensures NodesOwned(next) && NestedRunsUnattended(next)
  {
    FewerStepsStayUnattended(db, next);
  }

  lemma WorkflowRowKeeps(db: Db, w: Id, row: Workflow)
    requires Consistent(db)
    requires forall v :: v in db.workflows && db.workflows[v].name == row.name ==> v == w
    ensures Consistent(db.(workflows := db.workflows[w := row]))
  {
    var next := db.(workflows := db.workflows[w := row]);
    SameNodesKeep(db, next);
    assert next.connections == db.connections && next.nodes == db.nodes;
  }

  lemma CreateWorkflowKeeps(db: Db, newId: Id, name: string, description: Option<string>)
    requires Consistent(db)
    ensures Consistent(CreateWorkflowStep(db, newId, name, description).0)
  {
    if CreateWorkflowStep(db, newId, name, description).1 == OK {
      WorkflowRowKeeps(db, newId, Workflow(name, description, false, None, None));
    }
  }

  lemma UpdateWorkflowKeeps(db: Db, agents: Agents, grant: Grant, w: Id, p: WorkflowPatch)
    requires Consistent(db)
    ensures Consistent(UpdateWorkflowStep(db, agents, grant, w, p).0)
  {
    var (next, status) := UpdateWorkflowStep(db, agents, grant, w, p);
    if status == OK {
      WorkflowRowKeeps(db, w, next.workflows[w]);
    }
  }

  lemma PublishKeeps(db: Db, grant: Grant, w: Id)
    requires Consistent(db)
    ensures Consistent(PublishStep(db, grant, w).0) && Consistent(UnpublishStep(db, grant, w).0)
  {
    if w in db.workflows {
      WorkflowRowKeeps(db, w, db.workflows[w].(published := true));
      WorkflowRowKeeps(db, w, db.workflows[w].(published := false));
    }
  }

  lemma RowKeepsOneEntry(db: Db, c: Id, row: Connection)
    requires OneEntry(db)
    requires row.from.None? ==>
               forall d :: d in db.connections && Entry(db, d) && db.connections[d].workflowId == row.workflowId ==> d == c
    ensures OneEntry(db.(connections := db.connections[c := row]))
  {
    var next := db.(connections := db.connections[c := row]);
    assert forall d :: d in next.connections && d != c ==> d in db.connections && next.connections[d] == db.connections[d];
  }

  /** A connection between two nodes of one workflow, the only entry if it is one. */
  lemma ConnectionRowKeeps(db: Db, c: Id, row: Connection)
    requires Consistent(db)
    requires OwnNode(db, row.workflowId, row.to) && (row.from.Some? ==> OwnNode(db, row.workflowId, row.from.value))
    requires row.from.None? ==>
               forall d :: d in db.connections && Entry(db, d) && db.connections[d].workflowId == row.workflowId ==> d == c
    ensures Consistent(db.(connections := db.connections[c := row]))
  {
    var next := db.(connections := db.connections[c := row]);
    SameNodesKeep(db, next);
    assert UniqueNames(next);
    RowKeepsOneEntry(db, c, row);
    forall d | d in next.connections
      ensures OwnNode(next, next.connections[d].workflowId, next.connections[d].to)
      ensures next.connections[d].from.Some? ==> OwnNode(next, next.connections[d].workflowId, next.connections[d].from.value)
    {
      if d != c {
        assert next.connections[d] == db.connections[d];
      }
    }
  }

  lemma CreateConnectionKeeps(db: Db, grant: Grant, w: Id, newId: Id, from: Option<Id>, to: Id,
                              condition: Option<Condition>)
    requires Consistent(db)
    ensures Consistent(CreateConnectionStep(db, grant, w, newId, from, to, condition).0)
  {
    if CreateConnectionStep(db, grant, w, newId, from, to, condition).1 == OK {
      ConnectionRowKeeps(db, newId, Connection(w, from, to, condition));
    }
  }

  lemma UpdateConnectionKeeps(db: Db, grant: Grant, w: Id, c: Id, condition: Option<Option<Condition>>)
    requires Consistent(db)
    ensures Consistent(UpdateConnectionStep(db, grant, w, c, condition).0)
  {
    var (next, status) := UpdateConnectionStep(db, grant, w, c, condition);
    if status == OK {
      ConnectionRowKeeps(db, c, next.connections[c]);
    }
  }

  lemma DeleteConnectionKeeps(db: Db, grant: Grant, w: Id, c: Id)
    requires Consistent(db)
    ensures Consistent(DeleteConnectionStep(db, grant, w, c).0)
  {
    var next := DeleteConnectionStep(db, grant, w, c).0;
    SameNodesKeep(db, next);
    assert UniqueNames(next) && ConnectionsOwned(next);
  }

  lemma StepKeeps(db: Db, agents: Agents, grant: Grant, r: Request)
    requires Consistent(db)
    ensures Consistent(Step(db, agents, grant, r).0)
  {
    match r
    case CreateNode(w, newId, body) => CreateNodeKeeps(db, agents, grant, w, newId, body);
    case UpdateNode(w, n, changes) => UpdateNodeKeeps(db, agents, grant, w, n, changes);
    case DeleteNode(w, n) => DeleteNodeKeeps(db, grant, w, n);
    case DeleteWorkflow(w) => DeleteWorkflowKeeps(db, grant, w);
    case CreateWorkflow(newId, name, description) => CreateWorkflowKeeps(db, newId, name, description);
    case UpdateWorkflow(w, patch) => UpdateWorkflowKeeps(db, agents, grant, w, patch);
    case PublishWorkflow(w) => PublishKeeps(db, grant, w);
    case UnpublishWorkflow(w) => PublishKeeps(db, grant, w);
    case CreateConnection(w, newId, from, to, condition) => CreateConnectionKeeps(db, grant, w, newId, from, to, condition);
    case UpdateConnection(w, c, condition) => UpdateConnectionKeeps(db, grant, w, c, condition);
    case DeleteConnection(w, c) => DeleteConnectionKeeps(db, grant, w, c);
  }

  /** A request as it arrives: who asks, and what agents there are at that moment. */
  datatype Arrival = Arrival(agents: Agents, grant: Grant, request: Request)

  ghost function Run(db: Db, arrivals: seq<Arrival>): Db {
    if arrivals == [] then db
    else
      var a := arrivals[|arrivals| - 1];
      Step(Run(db, arrivals[..|arrivals| - 1]), a.agents, a.grant, a.request).0
  }

  /** In every state that requests lead to from the empty store, no workflow reachable through a nested
      step asks a human, every graph has at most one entry, and its connections join its own nodes. */
  lemma {:induction false} EveryRunIsConsistent(arrivals: seq<Arrival>)
    ensures Consistent(Run(Db(map[], map[], map[]), arrivals))
  {
    if arrivals != [] {
      var a := arrivals[|arrivals| - 1];
      EveryRunIsConsistent(arrivals[..|arrivals| - 1]);
      StepKeeps(Run(Db(map[], map[], map[]), arrivals[..|arrivals| - 1]), a.agents, a.grant, a.request);
    }
  }

  /** A refused request changes nothing. */
  lemma RefusedChangesNothing(db: Db, agents: Agents, grant: Grant, r: Request)
    ensures Step(db, agents, grant, r).1 != OK ==> Step(db, agents, grant, r).0 == db
  {
  }

  // ----- published graphs are frozen for guests -----

  /** w's row, but for its description, and its nodes and connections are the same in both. */
  ghost predicate SameGraph(db: Db, next: Db, w: Id) {
    && w in db.workflows && w in next.workflows
    && next.workflows[w].(description := None) == db.workflows[w].(description := None)
    && (forall n :: OwnNode(db, w, n) || OwnNode(next, w, n) ==>
          n in db.nodes && n in next.nodes && db.nodes[n] == next.nodes[n])
    && (forall c :: OwnConnection(db, w, c) || OwnConnection(next, w, c) ==>
          c in db.connections && c in next.connections && db.connections[c] == next.connections[c])
  }

  lemma SameGraphTransitive(a: Db, b: Db, c: Db, w: Id)
    requires SameGraph(a, b, w) && SameGraph(b, c, w)
    ensures SameGraph(a, c, w)
  {
  }

  lemma GuestWorkflowStep(db: Db, agents: Agents, r: Request, w: Id)
    requires Consistent(db) && w in db.workflows && db.workflows[w].published
    requires r.CreateWorkflow? || r.UpdateWorkflow? || r.DeleteWorkflow? || r.PublishWorkflow? || r.UnpublishWorkflow?
    ensures SameGraph(db, Step(db, agents, Invite, r).0, w)
  {
    match r
    case UpdateWorkflow(v, patch) => GuestUpdatesWorkflow(db, agents, v, patch, w);
    case CreateWorkflow(newId, name, description) => GuestCreatesWorkflow(db, newId, name, description, w);
    case _ =>
  }

  lemma GuestUpdatesWorkflow(db: Db, agents: Agents, v: Id, patch: WorkflowPatch, w: Id)
    requires w in db.workflows && db.workflows[w].published
    ensures SameGraph(db, UpdateWorkflowStep(db, agents, Invite, v, patch).0, w)
  {
  }

  lemma GuestCreatesWorkflow(db: Db, newId: Id, name: string, description: Option<string>, w: Id)
    requires w in db.workflows
    ensures SameGraph(db, CreateWorkflowStep(db, newId, name, description).0, w)
  {
  }

  /** Rows of another workflow may change without touching w's graph. */
  lemma OtherRowsLeaveGraph(db: Db, next: Db, w: Id)
    requires w in db.workflows && next.workflows == db.workflows
    requires forall n :: n in db.nodes && n in next.nodes && OwnNode(db, w, n) ==> next.nodes[n] == db.nodes[n]
    requires forall n :: OwnNode(db, w, n) ==> n in next.nodes
    requires forall n :: OwnNode(next, w, n) ==> OwnNode(db, w, n)
    requires forall c :: OwnConnection(db, w, c) ==> c in next.connections && next.connections[c] == db.connections[c]
    requires forall c :: OwnConnection(next, w, c) ==> OwnConnection(db, w, c)
    ensures SameGraph(db, next, w)
  {
  }

  lemma GuestCreatesNode(db: Db, agents: Agents, w: Id, v: Id, newId: Id, body: NodeBody)
    requires Consistent(db) && w in db.workflows && db.workflows[w].published
    ensures SameGraph(db, CreateNodeStep(db, agents, Invite, v, newId, body).0, w)
  {
    OtherRowsLeaveGraph(db, CreateNodeStep(db, agents, Invite, v, newId, body).0, w);
  }

  lemma GuestUpdatesNode(db: Db, agents: Agents, w: Id, v: Id, n: Id, p: NodePatch)
    requires Consistent(db) && w in db.workflows && db.workflows[w].published
    ensures SameGraph(db, UpdateNodeStep(db, agents, Invite, v, n, p).0, w)
  {
    OtherRowsLeaveGraph(db, UpdateNodeStep(db, agents, Invite, v, n, p).0, w);
  }

  /** The cascade of a node of another workflow stops at that workflow. */
  lemma GuestDeletesNode(db: Db, w: Id, v: Id, n: Id)
    requires Consistent(db) && w in db.workflows && db.workflows[w].published
    ensures SameGraph(db, DeleteNodeStep(db, Invite, v, n).0, w)
  {
    var next := DeleteNodeStep(db, Invite, v, n).0;
    forall c | OwnConnection(db, w, c) ensures c in next.connections && next.connections[c] == db.connections[c] {
      assert OwnNode(db, w, db.connections[c].to);
      assert db.connections[c].from.Some? ==> OwnNode(db, w, db.connections[c].from.value);
    }
    OtherRowsLeaveGraph(db, next, w);
  }

  lemma GuestPutsConnection(db: Db, next: Db, w: Id, c: Id)
    requires w in db.workflows && next.workflows == db.workflows && next.nodes == db.nodes
    requires !OwnConnection(db, w, c) && !OwnConnection(next, w, c)
    requires forall d :: d != c ==> (d in next.connections <==> d in db.connections)
    requires forall d :: d != c && d in db.connections ==> next.connections[d] == db.connections[d]
    ensures SameGraph(db, next, w)
  {
    OtherRowsLeaveGraph(db, next, w);
  }

  lemma GuestConnectionStep(db: Db, agents: Agents, r: Request, w: Id)
    requires w in db.workflows && db.workflows[w].published
    requires r.CreateConnection? || r.UpdateConnection? || r.DeleteConnection?
    ensures SameGraph(db, Step(db, agents, Invite, r).0, w)
  {
    var (next, status) := Step(db, agents, Invite, r);
    if status != OK {
      RefusedChangesNothing(db, agents, Invite, r);
    } else {
      GuestPutsConnection(db, next, w, if r.CreateConnection? then r.newId else r.connectionId);
    }
  }

  lemma GuestStepFreezes(db: Db, agents: Agents, r: Request, w: Id)
    requires Consistent(db) && w in db.workflows && db.workflows[w].published
    ensures SameGraph(db, Step(db, agents, Invite, r).0, w)
  {
    match r
    case CreateNode(v, newId, body) => GuestCreatesNode(db, agents, w, v, newId, body);
    case UpdateNode(v, n, changes) => GuestUpdatesNode(db, agents, w, v, n, changes);
    case DeleteNode(v, n) => GuestDeletesNode(db, w, v, n);
    case CreateConnection(_, _, _, _, _) => GuestConnectionStep(db, agents, r, w);
    case UpdateConnection(_, _, _) => GuestConnectionStep(db, agents, r, w);
    case DeleteConnection(_, _) => GuestConnectionStep(db, agents, r, w);
    case _ => GuestWorkflowStep(db, agents, r, w);
  }

  /** No run of requests without the owner grant changes a published workflow: not its name,
      its published flag or its unattended triggers, and not its nodes or connections. */
  lemma {:induction false} GuestsCannotChangePublished(db: Db, arrivals: seq<Arrival>, w: Id)
    requires Consistent(db) && w in db.workflows && db.workflows[w].published
    requires forall i :: 0 <= i < |arrivals| ==> arrivals[i].grant == Invite
    ensures SameGraph(db, Run(db, arrivals), w) && Consistent(Run(db, arrivals))
  {
    if arrivals != [] {
      var init := arrivals[..|arrivals| - 1];
      var a := arrivals[|arrivals| - 1];
      GuestsCannotChangePublished(db, init, w);
      var mid := Run(db, init);
      StepKeeps(mid, a.agents, a.grant, a.request);
      GuestStepFreezes(mid, a.agents, a.request, w);
      SameGraphTransitive(db, mid, Run(db, arrivals), w);
    }
  }
}
