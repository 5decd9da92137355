/**
 The event payloads (`internal/workflowevent/factory.go`) and their decoding in the command handler
 (`internal/workflowruntime/commands.go`): what of a published graph and of a decided task arrives at the runtime.
 */
module Events {
  import opened Model
  import opened Graph
  import opened Kahn
  import opened Validation
  import opened Runtime
  import opened Parametricity
  import T = Tables

  datatype NodeTypeCode = NODE_TYPE_UNSPECIFIED | NODE_TYPE_START | NODE_TYPE_APPROVAL | NODE_TYPE_SERVICE_TASK
    | NODE_TYPE_TIMER | NODE_TYPE_END

  datatype AssigneeTypeCode = ASSIGNEE_TYPE_UNSPECIFIED | ASSIGNEE_TYPE_USER | ASSIGNEE_TYPE_ROLE
    | ASSIGNEE_TYPE_STARTER | ASSIGNEE_TYPE_EXPRESSION

  datatype DecisionCode = TASK_DECISION_UNSPECIFIED | TASK_DECISION_APPROVE | TASK_DECISION_REJECT

  datatype WireNode = WireNode(
    id: string, name: string, kind: NodeTypeCode, assigneeType: AssigneeTypeCode, assignee: string,
      timeoutSeconds: uint32,
    targetService: string, fullMethod: string, requestTemplateJson: string, compensationMethod: string,
    timerSeconds: uint32, configJson: string)

  datatype WireEdge = WireEdge(fromNodeId: string, toNodeId: string, conditionExpression: string, priority: int32)

  datatype WireInstance = WireInstance(
    id: string, tenantId: string, applicationId: string, starterId: string, variablesJson: string)

  /** Nodes and edges may be missing in a foreign message. */
  datatype WireStart = WireStart(instance: WireInstance, nodes: seq<Option<WireNode>>, edges: seq<Option<WireEdge>>)

  datatype WireTask = WireTask(
    id: string, tenantId: string, instanceId: string, nodeId: string, decision: DecisionCode, outputJson: string)

  // ---------- encoding ----------

  function EncodeKind(kind: NodeType): NodeTypeCode {
    match kind
    case Start => NODE_TYPE_START
    case Approval => NODE_TYPE_APPROVAL
    case ServiceTask => NODE_TYPE_SERVICE_TASK
    case Timer => NODE_TYPE_TIMER
    case End => NODE_TYPE_END
    case OtherType(_) => NODE_TYPE_UNSPECIFIED
  }

  function EncodeAssigneeType(kind: AssigneeType): AssigneeTypeCode {
    match kind
    case User => ASSIGNEE_TYPE_USER
    case Role => ASSIGNEE_TYPE_ROLE
    case Starter => ASSIGNEE_TYPE_STARTER
    case Expression => ASSIGNEE_TYPE_EXPRESSION
    case OtherAssignee(_) => ASSIGNEE_TYPE_UNSPECIFIED
  }

  function EncodeDecision(decision: Decision): DecisionCode {
    match decision
    case Approve => TASK_DECISION_APPROVE
    case Reject => TASK_DECISION_REJECT
    case OtherDecision(_) => TASK_DECISION_UNSPECIFIED
  }

  function EncodeNode(n: Node): WireNode {
    WireNode(n.id, n.name, EncodeKind(n.kind), EncodeAssigneeType(n.assigneeType), n.assignee, n.timeoutSeconds,
             n.targetService,
             n.fullMethod, n.requestTemplate, n.compensationMethod, n.timerSeconds, n.config)
  }

  function EncodeNodes(nodes: seq<Node>): (values: seq<Option<WireNode>>) {
    if nodes == [] then [] else EncodeNodes(nodes[..|nodes| - 1]) + [Some(EncodeNode(nodes[|nodes| - 1]))]
  }

  function EncodeEdges(edges: seq<Edge>): (values: seq<Option<WireEdge>>) {
    if edges == [] then [] else
    var e := edges[|edges| - 1];
    EncodeEdges(edges[..|edges| - 1]) + [Some(WireEdge(e.source, e.target, e.condition, e.priority))]
  }

  function EncodeStart(i: T.Instance, d: T.Definition): WireStart {
    WireStart(WireInstance(i.id, i.tenantId, i.applicationId, i.starterId, i.variables), EncodeNodes(d.nodes),
              EncodeEdges(d.edges))
  }

  function EncodeTask(t: T.Task): WireTask {
    WireTask(t.id, t.tenantId, t.instanceId, t.nodeId, EncodeDecision(t.decision), t.output)
  }

  // ---------- decoding ----------

  /** A code without a name decodes to the empty text. */
  function DecodeKind(code: NodeTypeCode): NodeType {
    match code
    case NODE_TYPE_START => Start
    case NODE_TYPE_APPROVAL => Approval
    case NODE_TYPE_SERVICE_TASK => ServiceTask
    case NODE_TYPE_TIMER => Timer
    case NODE_TYPE_END => End
    case NODE_TYPE_UNSPECIFIED => OtherType("")
  }

  function DecodeAssigneeType(code: AssigneeTypeCode): AssigneeType {
    match code
    case ASSIGNEE_TYPE_USER => User
    case ASSIGNEE_TYPE_ROLE => Role
    case ASSIGNEE_TYPE_STARTER => Starter
    case ASSIGNEE_TYPE_EXPRESSION => Expression
    case ASSIGNEE_TYPE_UNSPECIFIED => OtherAssignee("")
  }

  function DecodeDecision(code: DecisionCode): Decision {
    match code
    case TASK_DECISION_APPROVE => Approve
    case TASK_DECISION_REJECT => Reject
    case TASK_DECISION_UNSPECIFIED => OtherDecision("")
  }

  function DecodeNode(v: WireNode): Node {
    Node(v.id, v.name, DecodeKind(v.kind), DecodeAssigneeType(v.assigneeType), v.assignee, v.timeoutSeconds,
         v.targetService,
         v.fullMethod, v.requestTemplateJson, v.compensationMethod, v.timerSeconds, v.configJson)
  }

  function DecodeNodes(values: seq<Option<WireNode>>): (nodes: seq<Node>) {
    if values == [] then [] else
    var last := values[|values| - 1];
    DecodeNodes(values[..|values| - 1]) + (if last.Some? then [DecodeNode(last.value)] else [])
  }

  function DecodeEdges(values: seq<Option<WireEdge>>): (edges: seq<Edge>) {
    if values == [] then [] else
    var last := values[|values| - 1];
    DecodeEdges(values[..|values| - 1])
    + (if last.Some? then [Edge(last.value.fromNodeId, last.value.toNodeId, last.value.conditionExpression,
                                last.value.priority)] else [])
  }

  /** The workflow input of a start event, or an error for an incomplete one. */
  function DecodeStart(v: WireStart): Result<Input> {
    if v.instance.id == "" || v.instance.applicationId == "" then Err(Invalid) else
    Ok(Input(v.instance.id, v.instance.tenantId, v.instance.applicationId, v.instance.starterId,
             v.instance.variablesJson,
             DecodeNodes(v.nodes), DecodeEdges(v.edges)))
  }

  function DecodeSignal(v: WireTask): Result<Signal> {
    if v.instanceId == "" then Err(Invalid) else Ok(Signal(v.id, v.nodeId, DecodeDecision(v.decision), v.outputJson))
  }

  function WorkflowId(tenantId: string, id: string): string {
    "workflow:" + tenantId + ":" + id
  }

  /** Instance identifiers hold no colon, so the workflow identifier tells tenants and instances apart. */
  lemma WorkflowIdIsExact(tenantId: string, id: string, otherTenant: string, otherId: string)
    requires ':' !in id && ':' !in otherId
    ensures WorkflowId(tenantId, id) == WorkflowId(otherTenant, otherId) <==> tenantId == otherTenant && id == otherId
  {
    var s, t := WorkflowId(tenantId, id), WorkflowId(otherTenant, otherId);
    if s == t {
      var a, b := |s| - |id|, |s| - |otherId|;
      assert forall k | a <= k < |s| :: s[k] == id[k - a];
      assert forall k | b <= k < |s| :: t[k] == otherId[k - b];
      assert s[a - 1] == ':' && t[b - 1] == ':';
      assert a == b;
      assert id == s[a..] && otherId == t[b..];
      assert tenantId == s[9..a - 1] && otherTenant == t[9..b - 1];
    }
  }

  // ---------- what arrives ----------

  /** A node as it arrives. */
  function Carry(n: Node): Node {
    DecodeNode(EncodeNode(n))
  }

  function CarryAll(nodes: seq<Node>): (carried: seq<Node>) {
    MapNodes(Carry, nodes)
  }

  lemma CarryKeepsShape()
    ensures KeepsShape(Carry)
  {
  }

  lemma {:induction false} NodesArrive(nodes: seq<Node>)
    ensures DecodeNodes(EncodeNodes(nodes)) == CarryAll(nodes)
  {
    if nodes != [] {
      var front := nodes[..|nodes| - 1];
      NodesArrive(front);
      assert EncodeNodes(nodes)[..|EncodeNodes(nodes)| - 1] == EncodeNodes(front);
    }
  }

  lemma {:induction false} EdgesArrive(edges: seq<Edge>)
    ensures DecodeEdges(EncodeEdges(edges)) == edges
  {
    if edges != [] {
      var front := edges[..|edges| - 1];
      EdgesArrive(front);
      assert EncodeEdges(edges)[..|EncodeEdges(edges)| - 1] == EncodeEdges(front);
    }
  }

  /**
   A validated graph arrives as it was published, except that an unknown assignee type of a node that is not an
   approval arrives as an empty one; and the run starts for the identity, starter and variables of the instance.
   */
  lemma StartArrives(isJson: string -> bool, i: T.Instance, d: T.Definition)
    requires ValidDefinition(isJson, d.key, d.name, d.nodes, d.edges) && i.id != "" && i.applicationId != ""
    ensures DecodeStart(EncodeStart(i, d))
            == Ok(Input(i.id, i.tenantId, i.applicationId, i.starterId, i.variables, CarryAll(d.nodes), d.edges))
    ensures forall k | 0 <= k < |d.nodes| ::
              CarryAll(d.nodes)[k] == Blurred(d.nodes[k])
    ensures forall k | 0 <= k < |d.nodes| :: d.nodes[k].assigneeType.OtherAssignee? ==> d.nodes[k].kind != Approval
  {
    NodesArrive(d.nodes);
    EdgesArrive(d.edges);
    forall k | 0 <= k < |d.nodes|
      ensures Carry(d.nodes[k]) == Blurred(d.nodes[k])
      ensures d.nodes[k].assigneeType.OtherAssignee? ==> d.nodes[k].kind != Approval
    {
      assert d.nodes[k] in d.nodes && ValidNode(isJson, d.nodes[k]);
      ValidNodeArrives(isJson, d.nodes[k]);
    }
  }

  function Blurred(n: Node): Node {
    if n.assigneeType.OtherAssignee? then n.(assigneeType := OtherAssignee("")) else n
  }

  lemma NodeArrives(n: Node)
    requires !n.kind.OtherType?
    ensures Carry(n) == Blurred(n)
  {
    var v := EncodeNode(n);
    assert DecodeKind(v.kind) == n.kind;
    assert DecodeAssigneeType(v.assigneeType) == Blurred(n).assigneeType;
  }

  lemma BlurredIsValid(isJson: string -> bool, n: Node)
    requires ValidNode(isJson, n)
    ensures ValidNode(isJson, Blurred(n)) && !n.kind.OtherType?
            && (n.assigneeType.OtherAssignee? ==> n.kind != Approval)
  {
  }

  lemma ValidNodeArrives(isJson: string -> bool, n: Node)
    requires ValidNode(isJson, n)
    ensures Carry(n) == Blurred(n) && ValidNode(isJson, Carry(n))
    ensures n.assigneeType.OtherAssignee? ==> n.kind != Approval
  {
    BlurredIsValid(isJson, n);
    NodeArrives(n);
  }

  /** The decision, node and output of a decided task arrive unchanged. */
  lemma DecisionArrives(t: T.Task)
    requires t.instanceId != "" && t.decision in {Approve, Reject}
    ensures DecodeSignal(EncodeTask(t)) == Ok(Signal(t.id, t.nodeId, t.decision, t.output))
  {
  }

  // ---------- the graph that arrives is still valid ----------

  lemma {:induction false} KindsCarried(nodes: seq<Node>, kind: NodeType)
    requires !kind.OtherType?
    ensures CountKind(CarryAll(nodes), kind) == CountKind(nodes, kind)
  {
    if nodes != [] {
      KindsCarried(nodes[..|nodes| - 1], kind);
      assert CarryAll(nodes)[..|nodes| - 1] == CarryAll(nodes[..|nodes| - 1]);
    }
  }

  lemma EdgesCarried(nodes: map<string, Node>, carried: map<string, Node>, edges: seq<Edge>)
    requires SameShape(Carry, nodes, carried) && LocallyValid(nodes, edges)
    ensures LocallyValid(carried, edges)
  {
    forall e | e in edges ensures Joins(carried, e) {
      assert Joins(nodes, e);
    }
  }

  lemma LinksCarried(nodes: map<string, Node>, carried: map<string, Node>, edges: seq<Edge>)
    requires SameShape(Carry, nodes, carried) && Connected(nodes, edges)
    ensures Connected(carried, edges)
  {
    forall id | id in carried ensures Linked(carried, edges, id) {
      assert Linked(nodes, edges, id);
    }
  }

  lemma GraphCarried(nodes: map<string, Node>, carried: map<string, Node>, edges: seq<Edge>)
    requires SameShape(Carry, nodes, carried) && ValidGraph(nodes, edges)
    ensures ValidGraph(carried, edges)
  {
    EdgesCarried(nodes, carried, edges);
    LinksCarried(nodes, carried, edges);
  }

  /** A valid definition still validates after the journey. */
  lemma StillValid(isJson: string -> bool, key: string, name: string, nodes: seq<Node>, edges: seq<Edge>)
    requires ValidDefinition(isJson, key, name, nodes, edges)
    ensures ValidDefinition(isJson, key, name, CarryAll(nodes), edges)
  {
    var carried := CarryAll(nodes);
    forall n | n in carried ensures ValidNode(isJson, n) {
      var i :| 0 <= i < |carried| && carried[i] == n;
      assert nodes[i] in nodes && ValidNode(isJson, nodes[i]);
      ValidNodeArrives(isJson, nodes[i]);
    }
    CarryKeepsShape();
    IndexMaps(Carry, nodes);
    KindsCarried(nodes, Start);
    KindsCarried(nodes, End);
    GraphCarried(Index(nodes), Index(carried), edges);
  }

  /**
   The run over the graph that arrived makes the same calls, takes the same turns and ends alike, after every history.
   */
  lemma RunsAlike(sorter: seq<Edge> -> seq<Edge>, input: Input, history: seq<Reply>)
    ensures Replay(sorter, input.(nodes := CarryAll(input.nodes)), history)
            == MapMachine(Carry, Replay(sorter, input, history))
  {
    CarryKeepsShape();
    ReplayMaps(Carry, sorter, input, history);
  }
}
