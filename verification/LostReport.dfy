/**
 A whole behaviour in which an instance is stored as completed and compensated all the same: a service with a
 compensation, then the end; the finish commits, its report is lost, and the run is told that it failed.
 */
module LostReport {
  import opened Text
  import opened Model
  import opened Graph
  import opened Kahn
  import opened Validation
  import opened Runtime
  import opened RuntimeLaws
  import opened Histories
  import opened Events
  import opened Protocol
  import opened ProtocolProofs
  import opened ProtocolLaws
  import opened ReliableLaws
  import opened Traces
  import L = LedgerLaws
  import S = Service
  import T = Tables

  // ---------- the definition ----------

  const START := Node("s", "s", Start, Starter, "", 0, "", "", "", "", 0, "")
  const SERVICE := Node("a", "a", ServiceTask, Starter, "", 0, "t", "/p/M", "", "/p/M", 0, "")
  const END := Node("e", "e", End, Starter, "", 0, "", "", "", "", 0, "")
  const NODES := [START, SERVICE, END]
  const FIRST := Edge("s", "a", "", 0)
  const SECOND := Edge("a", "e", "", 0)
  const EDGES := [FIRST, SECOND]
  const BY_ID := map["s" := START, "a" := SERVICE, "e" := END]

  lemma OneMoreNode(front: seq<Node>, n: Node)
    ensures Index(front + [n]) == Index(front)[n.id := n]
    ensures DistinctIds(front + [n]) <==> DistinctIds(front) && n.id !in Index(front)
    ensures LastStart(front + [n]) == if n.kind == Start then Some(n) else LastStart(front)
    ensures forall kind :: CountKind(front + [n], kind) == CountKind(front, kind) + (if n.kind == kind then 1 else 0)
  {
    assert (front + [n])[..|front|] == front;
  }

  lemma IndexIs()
    ensures Index(NODES) == BY_ID && DistinctIds(NODES) && LastStart(NODES) == Some(START)
    ensures CountKind(NODES, Start) == 1 && CountKind(NODES, End) == 1
  {
    assert NODES == [] + [START] + [SERVICE] + [END];
    OneMoreNode([], START);
    OneMoreNode([] + [START], SERVICE);
    OneMoreNode([] + [START] + [SERVICE], END);
  }

  lemma NodesAreValid(isJson: string -> bool)
    requires isJson("{}")
    ensures forall n | n in NODES :: ValidNode(isJson, n)
  {
    assert "/p/M"[2] == '/' && "/p/M"[1..2] == "p" && "/p/M"[2 + 1..] == "M";
    assert IsFullMethod("/p/M");
  }

  lemma ArcsAreAcyclic()
    ensures Acyclic(Arcs(EDGES))
  {
    var arcs, order := Arcs(EDGES), ["s", "a", "e"];
    assert arcs == [("s", "a"), ("a", "e")];
    assert order[..0] == [] && order[..1] == ["s"] && order[..2] == ["s", "a"];
    forall i: nat, j: nat | i < j < |order| ensures Differ(order, i, j) {
    }
    OrderedIsAcyclic(arcs, order);
  }

  lemma NodesAreLinked()
    ensures Connected(BY_ID, EDGES)
  {
    var arcs := Arcs(EDGES);
    assert arcs == [("s", "a"), ("a", "e")];
    assert TargetsUpTo(arcs, 0, "s") == [] && TargetsUpTo(arcs, 1, "s") == ["a"] && TargetsUpTo(arcs, 2, "s") == ["a"];
    assert FIRST in EDGES && SECOND in EDGES;
    assert Linked(BY_ID, EDGES, "s") && Linked(BY_ID, EDGES, "a") && Linked(BY_ID, EDGES, "e");
  }

  lemma GraphIsValid(isJson: string -> bool)
    requires isJson("{}")
    ensures ValidDefinition(isJson, "k", "n", NODES, EDGES) && Trim("n") == "n"
  {
    IndexIs();
    NodesAreValid(isJson);
    ArcsAreAcyclic();
    NodesAreLinked();
    assert Joins(BY_ID, FIRST) && Joins(BY_ID, SECOND) && !SameEdge(EDGES[0], EDGES[1]);
    assert LocallyValid(BY_ID, EDGES);
  }

  // ---------- the rows ----------

  const DRAFT := T.Definition("d", "t", "p", "k", "n", "", Draft, 0, NODES, EDGES, 1)
  const PUBLISHED := DRAFT.(status := Published, publishedRevision := 1, version := 2)
  const REVISION := T.RevisionOf(DRAFT, 1)
  const INSTANCE := T.Instance("i", "t", "p", "d", 1, "b", "q", "w", "u", Running, "", "{}", "{}", "", None, 1)
  const OUTBOX := [T.DefinitionPublished(PUBLISHED), T.StartRequested(INSTANCE, T.Pinned(REVISION))]
  const PIN: (string, nat) := ("d", 1)

  const CREATED := T.Database(map["d" := DRAFT], map[], map[], map[], map[], [])
  const RELEASED := T.Database(map["d" := PUBLISHED], map[PIN := REVISION], map[], map[], map[],
                               [T.DefinitionPublished(PUBLISHED)])
  const LAUNCHED := T.Database(map["d" := PUBLISHED], map[PIN := REVISION], map["i" := INSTANCE], map[], map[], OUTBOX)

  lemma RowsFollow()
    ensures T.CreateDefinition(S.Initial().db, DRAFT, true).db == CREATED
    ensures T.PublishDefinition(CREATED, "t", "p", "d", 1, true).db == RELEASED
    ensures T.CreateInstance(RELEASED, INSTANCE, T.Pinned(REVISION), true).db == LAUNCHED
  {
  }

  // ---------- building a behaviour ----------

  /** A step of a user. */
  lemma UserStep(c: Setting, t: Trace, a: S.Action) returns (t': Trace)
    requires Possible(c, t) && Last(t).flows == map[] && Last(t).attempts == [] && Last(t).upstream == []
    requires S.Admissible(AnyEnv(c), Last(t).world, a) && !(a.NewTask? || a.MoveTo? || a.Conclude?)
    ensures Possible(c, t') && Last(t') == System(S.Next(Last(t).world, a, true), map[], [], [])
  {
    var s := Last(t).(world := S.Next(Last(t).world, a, true));
    ThenIsPossible(c, t, Move.User(L.Step(AnyEnv(c), a, true)), s);
    t' := Then(t, Move.User(L.Step(AnyEnv(c), a, true)), s);
  }

  function AnyEnv(c: Setting): S.Env {
    S.Env(c.isJson, (actor, role) => false, (actor, expression) => false)
  }

  /** The definition is created and published. */
  lemma Release(c: Setting) returns (t: Trace)
    requires IsSorter(c.sorter) && c.isJson("{}")
    ensures Possible(c, t) && Last(t).world.db == RELEASED && PUBLISHED in Last(t).world.seenDefinitions
    ensures Last(t).flows == map[] && Last(t).attempts == [] && Last(t).upstream == []
  {
    GraphIsValid(c.isJson);
    RowsFollow();
    t := Trace([Empty()], []);
    t := UserStep(c, t, S.Create(DRAFT));
    assert Last(t).world.db == CREATED && DRAFT in Last(t).world.seenDefinitions;
    t := UserStep(c, t, S.Publish(1, DRAFT));
  }

  /** An instance of the definition is launched. */
  lemma Launch(c: Setting) returns (t: Trace)
    requires IsSorter(c.sorter) && c.isJson("{}")
    ensures Possible(c, t)
    ensures Last(t).world.db == LAUNCHED && Last(t).flows == map[] && Last(t).attempts == [] && Last(t).upstream == []
  {
    t := Release(c);
    RowsFollow();
    assert ObjectText("{}") == "{}" && JsonObject(c.isJson, "{}");
    t := UserStep(c, t, S.Launch(INSTANCE, PUBLISHED));
  }

  // ---------- the run ----------

  const INPUT := Input("i", "t", "p", "u", "{}", NODES, EDGES)

  lemma NodesArriveAlike()
    ensures CarryAll(NODES) == NODES
  {
    NodeArrives(START);
    NodeArrives(SERVICE);
    NodeArrives(END);
  }

  lemma StartDecodes(isJson: string -> bool)
    requires ValidDefinition(isJson, "k", "n", NODES, EDGES)
    ensures DecodeStart(EncodeStart(INSTANCE, T.Pinned(REVISION))) == Ok(INPUT)
  {
    StartArrives(isJson, INSTANCE, T.Pinned(REVISION));
    NodesArriveAlike();
  }

  lemma OnlyEdgeChosen(sorter: seq<Edge> -> seq<Edge>, e: Edge)
    requires IsSorter(sorter)
    ensures sorter([e]) == [e]
  {
    var s := sorter([e]);
    assert SortOf([e], s);
    assert |multiset(s)| == 1;
    assert s[0] in multiset(s);
  }

  lemma CandidatesHere()
    ensures Candidates(EDGES, 2, "s") == [FIRST] && Candidates(EDGES, 2, "a") == [SECOND]
  {
    assert Candidates(EDGES, 1, "s") == [FIRST] && Candidates(EDGES, 1, "a") == [];
  }

  /** Where the code goes on from a node with one unconditional edge. */
  lemma OneWayOn(plan: Plan, m: Memory, e: Edge)
    requires IsSorter(plan.sorter) && Candidates(plan.edges, |plan.edges|, m.current.id) == [e]
    requires e.condition == "" && e.target != "" && e.target in plan.nodes
    ensures Choose(plan, m) == Enter(plan, m, plan.nodes[e.target])
  {
    OnlyEdgeChosen(plan.sorter, e);
    assert [e][1..] == [];
    assert Scan(plan, m, [e], "") == Scan(plan, m, [], e.target);
    assert Scan(plan, m, [], e.target) == Follow(plan, m, e.target);
  }

  const AT_SERVICE := Blank(START).(current := SERVICE, visited := [START, SERVICE])

  lemma FirstCall(c: Setting)
    requires IsSorter(c.sorter)
    ensures Replay(c.sorter, INPUT, []) == Machine(AT_SERVICE, Asking(Invoke(SERVICE), Invoking))
  {
    IndexIs();
    CandidatesHere();
    var plan := PlanOf(c.sorter, INPUT);
    var m := Blank(START).(visited := [START]);
    assert |plan.nodes| == 3 by { assert BY_ID.Keys == {"s", "a", "e"}; }
    assert [] + [START] == [START] && [START] + [SERVICE] == [START, SERVICE];
    assert Runtime.Begin(c.sorter, INPUT) == Enter(plan, Blank(START), START);
    assert Enter(plan, Blank(START), START) == AtNode(plan, m);
    OneWayOn(plan, m, FIRST);
    assert Enter(plan, m, SERVICE) == AtNode(plan, AT_SERVICE);
  }

  lemma SecondCall(c: Setting)
    requires IsSorter(c.sorter)
    ensures var machine := Replay(c.sorter, INPUT, [Output("{}")]);
            && machine.stage == Asking(Finish(Completed, "{}", None), Finishing)
            && machine.memory.log == [Exchange(Invoke(SERVICE), Output("{}"))]
  {
    IndexIs();
    CandidatesHere();
    FirstCall(c);
    assert [Output("{}")][..0] == [];
    var plan := PlanOf(c.sorter, INPUT);
    assert |plan.nodes| == 3 by { assert BY_ID.Keys == {"s", "a", "e"}; }
    var m := AT_SERVICE.(log := [Exchange(Invoke(SERVICE), Output("{}"))], completed := [SERVICE]);
    assert AT_SERVICE.log + [Exchange(Invoke(SERVICE), Output("{}"))] == m.log
      && AT_SERVICE.completed + [SERVICE] == m.completed;
    OneWayOn(plan, m, SECOND);
  }

  const INVOKE := Attempt("i", 0, Invoke(SERVICE), Begun)

  /** The start event has arrived. */
  lemma Arrived(c: Setting) returns (t: Trace)
    requires IsSorter(c.sorter) && c.isJson("{}")
    ensures Possible(c, t) && Last(t).world.db == LAUNCHED && Last(t).flows == map["i" := Flow(INPUT, [], [], false)]
    ensures Last(t).attempts == [] && Last(t).upstream == []
  {
    t := Launch(c);
    GraphIsValid(c.isJson);
    StartDecodes(c.isJson);
    var s := Last(t).(flows := map["i" := Flow(INPUT, [], [], false)]);
    ThenIsPossible(c, t, Deliver(1), s);
    t := Then(t, Deliver(1), s);
  }

  /** The run has started, and an attempt of its service has begun. */
  lemma Invoked(c: Setting) returns (t: Trace)
    requires IsSorter(c.sorter) && c.isJson("{}")
    ensures Possible(c, t) && Last(t).world.db == LAUNCHED && Last(t).flows == map["i" := Flow(INPUT, [], [], false)]
    ensures Last(t).attempts == [INVOKE] && Last(t).upstream == []
  {
    t := Arrived(c);
    FirstCall(c);
    var s := Last(t).(attempts := [INVOKE]);
    assert s.attempts == Last(t).attempts + [INVOKE];
    ThenIsPossible(c, t, Begin("i"), s);
    t := Then(t, Begin("i"), s);
  }

  const AT_NODE := INSTANCE.(currentNodeId := "a", version := 2)

  /** The attempt passes its guard, which moves the instance to the node. */
  lemma PassesGuard(c: Setting) returns (t: Trace)
    requires IsSorter(c.sorter) && c.isJson("{}")
    ensures Possible(c, t) && Last(t).world.db == LAUNCHED.(instances := map["i" := AT_NODE])
    ensures Last(t).flows == map["i" := Flow(INPUT, [], [], false)]
    ensures Last(t).attempts == [INVOKE.(progress := Guarded)] && Last(t).upstream == []
  {
    t := Invoked(c);
    var s := Last(t);
    var s' := s.(world := S.Next(s.world, S.MoveTo("t", "p", "i", "a"), true),
                 attempts := [INVOKE.(progress := Guarded)]);
    assert T.UpdateInstanceNode(LAUNCHED, "t", "p", "i", "a", true).db == LAUNCHED.(instances := map["i" := AT_NODE]);
    ThenIsPossible(c, t, Guard(0, true, true), s');
    t := Then(t, Guard(0, true, true), s');
  }

  /** The attempt calls the service. */
  lemma CallsService(c: Setting) returns (t: Trace)
    requires IsSorter(c.sorter) && c.isJson("{}")
    ensures Possible(c, t) && Last(t).world.db == LAUNCHED.(instances := map["i" := AT_NODE])
    ensures Last(t).flows == map["i" := Flow(INPUT, [], [], false)]
    ensures Last(t).attempts == [INVOKE.(progress := Succeeded(Output("{}")))] && Last(t).upstream == [0]
  {
    t := PassesGuard(c);
    var s := Last(t);
    var s' := s.(attempts := [INVOKE.(progress := Succeeded(Output("{}")))], upstream := [0]);
    assert s.upstream + [0] == [0];
    ThenIsPossible(c, t, CallUpstream(0, Some("{}")), s');
    t := Then(t, CallUpstream(0, Some("{}")), s');
  }

  /** The run takes the answer, and goes on to its end. */
  lemma TakesAnswer(c: Setting) returns (t: Trace)
    requires IsSorter(c.sorter) && c.isJson("{}")
    ensures Possible(c, t) && Last(t).world.db == LAUNCHED.(instances := map["i" := AT_NODE])
    ensures Last(t).flows == map["i" := Flow(INPUT, [Output("{}")], [], false)] && |Last(t).attempts| == 1
  {
    t := CallsService(c);
    FirstCall(c);
    var s := Last(t);
    var s' := s.(flows := map["i" := Flow(INPUT, [Output("{}")], [], false)]);
    assert s.attempts[0] == Attempt("i", 0, Invoke(SERVICE), Succeeded(Output("{}")));
    assert TakeReply(Flow(INPUT, [], [], false), Output("{}")) == Flow(INPUT, [Output("{}")], [], false);
    ThenIsPossible(c, t, Answer("i", Output("{}")), s');
    t := Then(t, Answer("i", Output("{}")), s');
  }

  lemma OneServiceDone(log: seq<Exchange>, service: Node, json: string)
    requires log == [Exchange(Invoke(service), Output(json))] && service.compensationMethod != ""
    ensures Compensable(Services(log)) == [service]
  {
    assert log[..0] == [] && Services(log) == [service] && [service][..0] == [];
  }

  /** An attempt of the completed finish has begun. */
  lemma BeginsFinish(c: Setting) returns (t: Trace)
    requires IsSorter(c.sorter) && c.isJson("{}")
    ensures Possible(c, t) && IsFinishing(c, Last(t), "i", 1)
  {
    t := TakesAnswer(c);
    SecondCall(c);
    var s := Last(t);
    var finish := Attempt("i", 1, Finish(Completed, "{}", None), Begun);
    OneServiceDone(Present(c, s.flows["i"]).memory.log, SERVICE, "{}");
    ThenIsPossible(c, t, Begin("i"), s.(attempts := s.attempts + [finish]));
    t := Then(t, Begin("i"), s.(attempts := s.attempts + [finish]));
  }

  /** What `LostReportUndoes` starts from. */
  predicate IsFinishing(c: Setting, s: System, id: string, k: nat) {
    && id in s.flows && Present(c, s.flows[id]).stage.Asking? && k < |s.attempts|
    && id in s.world.db.instances && s.world.db.instances[id].status == Running
    && Compensable(Services(Present(c, s.flows[id]).memory.log)) != []
    && var call := Present(c, s.flows[id]).stage.call;
       && call.Finish? && call.status == Completed && call.cause.None?
       && s.attempts[k] == Attempt(id, |s.flows[id].history|, call, Begun)
  }

  lemma LosesReport(c: Setting, t0: Trace, id: string, k: nat) returns (t: Trace)
    requires Possible(c, t0) && IsFinishing(c, Last(t0), id, k)
    ensures Possible(c, t) && id in Last(t).world.db.instances && Last(t).world.db.instances[id].status == Completed
    ensures id in Last(t).flows && Present(c, Last(t).flows[id]).stage.Asking?
            && Present(c, Last(t).flows[id]).stage.call.Compensate?
  {
    Reachable(c, t0, |t0.moves|);
    var s1, s2 := LostReportUndoes(c, Last(t0), id, k);
    ThenIsPossible(c, t0, Conclude(k, "", 0, true, false), s1);
    t := Then(t0, Conclude(k, "", 0, true, false), s1);
    ThenIsPossible(c, t, Answer(id, Denied), s2);
    t := Then(t, Answer(id, Denied), s2);
  }

  /**
   For every setting there is a behaviour that ends with an instance stored as completed whose run is about to
   compensate: the promise that a completed instance is not undone does not hold of every behaviour.
   */
  lemma CompletedIsUndone(c: Setting) returns (t: Trace, id: string)
    requires IsSorter(c.sorter) && c.isJson("{}")
    ensures Possible(c, t) && id in Last(t).world.db.instances && Last(t).world.db.instances[id].status == Completed
    ensures id in Last(t).flows && Present(c, Last(t).flows[id]).stage.Asking?
            && Present(c, Last(t).flows[id]).stage.call.Compensate?
  {
    t := BeginsFinish(c);
    id := "i";
    t := LosesReport(c, t, id, 1);
  }
}
