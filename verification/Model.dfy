/** The entities of the workflow domain. */
module Model {
  type uint32 = n: int | 0 <= n < 0x1_0000_0000
  type int32 = n: int | -0x8000_0000 <= n < 0x8000_0000

  datatype Option<+T> = None | Some(value: T)

  datatype Failure = Invalid | NotFound | Conflict | VersionConflict | Forbidden | ActorRequired | StoreFailure

  datatype Result<+T> = Ok(value: T) | Err(error: Failure)

  /** Type names outside the known list are representable: only the validator excludes them. */
  datatype NodeType = Start | Approval | ServiceTask | Timer | End | OtherType(text: string)

  datatype AssigneeType = User | Role | Starter | Expression | OtherAssignee(text: string)

  datatype Decision = Approve | Reject | OtherDecision(text: string)

  datatype DefinitionStatus = Draft | Published | Disabled

  datatype InstanceStatus = Running | Completed | Rejected | Cancelled | Failed

  datatype TaskStatus = Pending | Claimed | TaskApproved | TaskRejected

  datatype Node = Node(
    id: string, name: string, kind: NodeType,
    assigneeType: AssigneeType, assignee: string, timeoutSeconds: uint32,
    targetService: string, fullMethod: string, requestTemplate: string, compensationMethod: string,
    timerSeconds: uint32, config: string)

  datatype Edge = Edge(source: string, target: string, condition: string, priority: int32)

  /** The nodes by identifier; of several nodes with one identifier the last stays. */
  function Index(nodes: seq<Node>): map<string, Node> {
    if nodes == [] then map[] else
    var last := nodes[|nodes| - 1];
    Index(nodes[..|nodes| - 1])[last.id := last]
  }

  /** No two nodes share an identifier. */
  predicate DistinctIds(nodes: seq<Node>) {
    nodes == [] ||
    (DistinctIds(nodes[..|nodes| - 1]) && nodes[|nodes| - 1].id !in Index(nodes[..|nodes| - 1]))
  }

  lemma {:induction false} IndexFacts(nodes: seq<Node>)
    ensures forall id :: id in Index(nodes) <==> exists n :: n in nodes && n.id == id
    ensures forall id | id in Index(nodes) :: Index(nodes)[id] in nodes && Index(nodes)[id].id == id
  {
    if nodes != [] {
      var front, last := nodes[..|nodes| - 1], nodes[|nodes| - 1];
      IndexFacts(front);
      assert nodes == front + [last];
    }
  }

  lemma {:induction false} IndexOfDistinct(nodes: seq<Node>)
    requires DistinctIds(nodes)
    ensures |Index(nodes)| == |nodes|
    ensures forall n | n in nodes :: n.id in Index(nodes) && Index(nodes)[n.id] == n
  {
    if nodes != [] {
      var front, last := nodes[..|nodes| - 1], nodes[|nodes| - 1];
      IndexOfDistinct(front);
      IndexFacts(front);
      assert Index(nodes).Keys == Index(front).Keys + {last.id};
    }
  }
}
