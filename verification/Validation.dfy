/** Validation of workflow definitions (`internal/workflow/graph.go`). */
module Validation {
  import opened Text
  import opened Model
  import opened Graph
  import opened Kahn

  datatype Reason = BadEdge | DuplicateEdge | LongCondition | StartFanOut | NoIncoming | NoOutgoing | Cyclic

  datatype Verdict = Accepted | Refused(reason: Reason)

  // ---------- what a valid node is ----------

  /** `isJson` decides whether a text decodes into a JSON object; it is left open. */
  predicate JsonObject(isJson: string -> bool, text: string) {
    isJson(if text == "" then "{}" else text)
  }

  predicate ValidNode(isJson: string -> bool, node: Node) {
    && IsIdentifier(node.id)
    && !IsBlank(node.name)
    && (match node.kind
        case Start => true
        case End => true
        case Approval => !node.assigneeType.OtherAssignee? && (node.assigneeType == Starter || !IsBlank(node.assignee))
        case ServiceTask =>
          && IsIdentifier(node.targetService)
          && IsFullMethod(node.fullMethod)
          && (node.compensationMethod == "" || IsFullMethod(node.compensationMethod))
          && JsonObject(isJson, node.requestTemplate)
        case Timer => 0 < node.timerSeconds <= 365 * 24 * 60 * 60
        case OtherType(_) => false)
    && (node.config == "" || JsonObject(isJson, node.config))
  }

  // ---------- what a valid graph is ----------

  predicate Joins(nodes: map<string, Node>, e: Edge) {
    && e.source in nodes && e.target in nodes
    && nodes[e.source].kind != End && nodes[e.target].kind != Start
    && e.source != e.target
  }

  predicate SameEdge(e: Edge, f: Edge) {
    e.source == f.source && e.target == f.target && e.condition == f.condition
  }

  predicate LocallyValid(nodes: map<string, Node>, edges: seq<Edge>) {
    && (forall e {:trigger Joins(nodes, e)} | e in edges :: Joins(nodes, e))
    && (forall e {:trigger ByteLength(e.condition)} | e in edges :: ByteLength(e.condition) <= 1000)
    && (forall i, j {:trigger SameEdge(edges[i], edges[j])} | 0 <= i < j < |edges| :: !SameEdge(edges[i], edges[j]))
  }

  /** The edges as arcs between node identifiers. */
  function Arcs(edges: seq<Edge>): (arcs: seq<(string, string)>)
    ensures |arcs| == |edges|
    ensures forall i | 0 <= i < |edges| :: arcs[i] == (edges[i].source, edges[i].target)
  {
    seq(|edges|, i requires 0 <= i < |edges| => (edges[i].source, edges[i].target))
  }

  predicate HasIncoming(edges: seq<Edge>, v: string) {
    exists e :: e in edges && e.target == v
  }

  predicate HasOutgoing(edges: seq<Edge>, u: string) {
    exists e :: e in edges && e.source == u
  }

  /** The degree rules of one node. */
  predicate Linked(nodes: map<string, Node>, edges: seq<Edge>, id: string)
    requires id in nodes
  {
    && (nodes[id].kind == Start ==> |Targets(Arcs(edges), id)| == 1)
    && (nodes[id].kind != Start ==> HasIncoming(edges, id))
    && (nodes[id].kind != End ==> HasOutgoing(edges, id))
  }

  predicate Connected(nodes: map<string, Node>, edges: seq<Edge>) {
    forall id {:trigger Linked(nodes, edges, id)} | id in nodes :: Linked(nodes, edges, id)
  }

  ghost predicate ValidGraph(nodes: map<string, Node>, edges: seq<Edge>) {
    LocallyValid(nodes, edges) && Connected(nodes, edges) && Acyclic(Arcs(edges))
  }

  predicate OnlyStart(nodes: map<string, Node>, s: string) {
    s in nodes && forall id | id in nodes :: nodes[id].kind == Start <==> id == s
  }

  function CountKind(nodes: seq<Node>, kind: NodeType): nat {
    if nodes == [] then 0 else
    CountKind(nodes[..|nodes| - 1], kind) + (if nodes[|nodes| - 1].kind == kind then 1 else 0)
  }

  ghost predicate ValidDefinition(isJson: string -> bool, key: string, name: string, nodes: seq<Node>,
                                  edges: seq<Edge>)
  {
    && IsIdentifier(key) && !IsBlank(name)
    && 2 <= |nodes| <= 200 && |edges| <= 500
    && (forall n {:trigger ValidNode(isJson, n)} | n in nodes :: ValidNode(isJson, n))
    && DistinctIds(nodes)
    && CountKind(nodes, Start) == 1 && CountKind(nodes, End) > 0
    && ValidGraph(Index(nodes), edges)
  }

  // ---------- duplicate detection by a joined key ----------

  function EdgeKey(e: Edge): string {
    e.source + "\0" + e.target + "\0" + e.condition
  }

  function Keys(edges: seq<Edge>): set<string> {
    set e | e in edges :: EdgeKey(e)
  }

  lemma SplitAtNul(a: string, x: string, b: string, y: string)
    requires '\0' !in a && '\0' !in b
    requires a + "\0" + x == b + "\0" + y
    ensures a == b && x == y
  {
    var s, t := a + "\0" + x, b + "\0" + y;
    assert s[|a|] == '\0' && t[|b|] == '\0';
    assert forall i | 0 <= i < |a| :: s[i] == a[i];
    assert forall i | 0 <= i < |b| :: t[i] == b[i];
    assert |a| == |b|;
    assert a == s[..|a|] && b == t[..|a|];
    assert x == s[|a| + 1..] && y == t[|a| + 1..];
  }

  /** The joined key tells edges apart exactly by source, target and condition: identifiers hold no NUL. */
  lemma EdgeKeyIsExact(e: Edge, f: Edge)
    requires IsIdentifier(e.source) && IsIdentifier(e.target) && IsIdentifier(f.source) && IsIdentifier(f.target)
    ensures EdgeKey(e) == EdgeKey(f) <==> SameEdge(e, f)
  {
    if EdgeKey(e) == EdgeKey(f) {
      assert EdgeKey(e) == e.source + "\0" + (e.target + "\0" + e.condition);
      assert EdgeKey(f) == f.source + "\0" + (f.target + "\0" + f.condition);
      SplitAtNul(e.source, e.target + "\0" + e.condition, f.source, f.target + "\0" + f.condition);
      SplitAtNul(e.target, e.condition, f.target, f.condition);
    }
  }

  // ---------- sorting of target lists ----------

  /** Byte order of UTF-8 texts, which is code point order. */
  predicate AtMost(s: string, t: string) {
    s == "" || (t != "" && (s[0] < t[0] || (s[0] == t[0] && AtMost(s[1..], t[1..]))))
  }

  /** The texts agree before place `k`, where `s` ends first or has the smaller character. */
  predicate IsBelowAt(s: string, t: string, k: nat) {
    && k <= |s| && k < |t| && s[..k] == t[..k] && (k < |s| ==> s[k] < t[k])
  }

  /** Dictionary order: one text is the other, or comes before it at the first place where they differ. */
  lemma {:induction false} AtMostIs(s: string, t: string)
    ensures AtMost(s, t) <==> s == t || exists k: nat :: IsBelowAt(s, t, k)
  {
    if s != "" && t != "" && s[0] == t[0] {
      AtMostIs(s[1..], t[1..]);
      assert s == [s[0]] + s[1..] && t == [t[0]] + t[1..];
      if k: nat :| IsBelowAt(s[1..], t[1..], k) {
        assert s[..k + 1] == [s[0]] + s[1..][..k] && t[..k + 1] == [t[0]] + t[1..][..k];
        assert IsBelowAt(s, t, k + 1);
      }
      if k: nat :| IsBelowAt(s, t, k) {
        assert s[1..][..k - 1] == s[..k][1..] && t[1..][..k - 1] == t[..k][1..];
        assert IsBelowAt(s[1..], t[1..], k - 1);
      }
    } else if AtMost(s, t) && s != t {
      assert IsBelowAt(s, t, 0);
    }
  }

  predicate Sorted(s: seq<string>) {
    forall i, j | 0 <= i < j < |s| :: AtMost(s[i], s[j])
  }

  lemma {:induction false} AtMostIsTotal(s: string, t: string)
    ensures AtMost(s, t) || AtMost(t, s)
  {
    if s != "" && t != "" && s[0] == t[0] {
      AtMostIsTotal(s[1..], t[1..]);
    }
  }

  lemma {:induction false} AtMostIsTransitive(s: string, t: string, u: string)
    requires AtMost(s, t) && AtMost(t, u)
    ensures AtMost(s, u)
  {
    if s != "" && s[0] == t[0] == u[0] {
      AtMostIsTransitive(s[1..], t[1..], u[1..]);
    }
  }

  lemma InsertedIsSorted(t: seq<string>, x: string, k: nat)
    requires Sorted(t) && k <= |t|
    requires forall j | 0 <= j < k :: AtMost(t[j], x)
    requires forall j | k <= j < |t| :: AtMost(x, t[j])
    ensures Sorted(t[..k] + [x] + t[k..])
  {
    var u := t[..k] + [x] + t[k..];
    forall i, j | 0 <= i < j < |u| ensures AtMost(u[i], u[j]) {
      assert i < k ==> u[i] == t[i];
      assert i > k ==> u[i] == t[i - 1];
      assert j < k ==> u[j] == t[j];
      assert j > k ==> u[j] == t[j - 1];
    }
  }

  /** The rest of a sorted list starts with its least. */
  lemma LeastOfRest(t: seq<string>, x: string, k: nat)
    requires Sorted(t) && k < |t| && AtMost(x, t[k])
    ensures forall j | k <= j < |t| :: AtMost(x, t[j])
  {
    forall j | k < j < |t| ensures AtMost(x, t[j]) {
      AtMostIsTransitive(x, t[k], t[j]);
    }
  }

  method InsertString(t: seq<string>, x: string) returns (u: seq<string>)
    requires Sorted(t)
    ensures multiset(u) == multiset(t) + multiset{x} && Sorted(u)
  {
    var k := 0;
    while k < |t| && AtMost(t[k], x)
      invariant 0 <= k <= |t|
      invariant forall j | 0 <= j < k :: AtMost(t[j], x)
    {
      k := k + 1;
    }
    if k < |t| {
      AtMostIsTotal(t[k], x);
      LeastOfRest(t, x, k);
    }
    InsertedIsSorted(t, x, k);
    assert t == t[..k] + t[k..];
    u := t[..k] + [x] + t[k..];
  }

  method SortStrings(s: seq<string>) returns (t: seq<string>)
    ensures multiset(t) == multiset(s) && Sorted(t)
  {
    t := [];
    for i := 0 to |s|
      invariant multiset(t) == multiset(s[..i]) && Sorted(t)
    {
      assert s[..i + 1] == s[..i] + [s[i]];
      t := InsertString(t, s[i]);
    }
    assert s[..|s|] == s;
  }

  // ---------- the validator ----------

  lemma NewEdgeIsValid(nodes: map<string, Node>, read: seq<Edge>, edge: Edge)
    requires forall id | id in nodes :: IsIdentifier(id)
    requires LocallyValid(nodes, read) && Joins(nodes, edge)
    requires ByteLength(edge.condition) <= 1000 && EdgeKey(edge) !in Keys(read)
    ensures LocallyValid(nodes, read + [edge])
  {
    forall i | 0 <= i < |read| ensures !SameEdge(read[i], edge) {
      assert Joins(nodes, read[i]) && read[i] in read;
      EdgeKeyIsExact(read[i], edge);
    }
  }

  /** The local checks of one edge, in their order. */
  method CheckEdge(nodes: map<string, Node>, edge: Edge, seen: set<string>) returns (failure: Option<Reason>)
    ensures failure == Some(BadEdge) <==> !Joins(nodes, edge)
    ensures failure == Some(DuplicateEdge) <==> Joins(nodes, edge) && EdgeKey(edge) in seen
    ensures failure == Some(LongCondition)
            <==> Joins(nodes, edge) && EdgeKey(edge) !in seen && ByteLength(edge.condition) > 1000
    ensures failure.None? || failure.value in {BadEdge, DuplicateEdge, LongCondition}
  {
    if edge.source !in nodes || edge.target !in nodes || nodes[edge.source].kind == End
      || nodes[edge.target].kind == Start
       || edge.source == edge.target {
      return Some(BadEdge);
    }
    if EdgeKey(edge) in seen {
      return Some(DuplicateEdge);
    }
    if ByteLength(edge.condition) > 1000 {
      return Some(LongCondition);
    }
    return None;
  }

  lemma RefusedEdge(nodes: map<string, Node>, edges: seq<Edge>, i: nat, reason: Reason)
    requires forall id | id in nodes :: IsIdentifier(id)
    requires i < |edges| && LocallyValid(nodes, edges[..i])
    requires reason == BadEdge ==> !Joins(nodes, edges[i])
    requires reason == DuplicateEdge ==> Joins(nodes, edges[i]) && EdgeKey(edges[i]) in Keys(edges[..i])
    requires reason == LongCondition ==> ByteLength(edges[i].condition) > 1000
    requires reason in {BadEdge, DuplicateEdge, LongCondition}
    ensures !LocallyValid(nodes, edges)
  {
    assert edges[i] in edges;
    if reason == DuplicateEdge {
      var e :| e in edges[..i] && EdgeKey(e) == EdgeKey(edges[i]);
      var k :| 0 <= k < i && edges[..i][k] == e;
      assert Joins(nodes, edges[..i][k]);
      EdgeKeyIsExact(edges[k], edges[i]);
      assert SameEdge(edges[k], edges[i]);
    }
  }

  lemma AcceptedEdge(nodes: map<string, Node>, edges: seq<Edge>, i: nat, seen: set<string>)
    requires forall id | id in nodes :: IsIdentifier(id)
    requires i < |edges| && LocallyValid(nodes, edges[..i]) && seen == Keys(edges[..i])
    requires Joins(nodes, edges[i]) && EdgeKey(edges[i]) !in seen && ByteLength(edges[i].condition) <= 1000
    ensures LocallyValid(nodes, edges[..i + 1])
    ensures seen + {EdgeKey(edges[i])} == Keys(edges[..i + 1])
  {
    assert edges[..i + 1] == edges[..i] + [edges[i]];
    NewEdgeIsValid(nodes, edges[..i], edges[i]);
  }

  /** The first `i` edges are in order and recorded. */
  ghost predicate ReadSoFar(nodes: map<string, Node>, edges: seq<Edge>, i: nat, seen: set<string>,
                            indegree: map<string, int>, outgoing: map<string, seq<string>>)
  {
    && i <= |edges| && LocallyValid(nodes, edges[..i]) && seen == Keys(edges[..i])
    && Gathered(nodes.Keys, Arcs(edges), i, indegree, outgoing)
  }

  /** One round of the first pass: the local checks of an edge, then its in-degree and target. */
  method TakeEdge(nodes: map<string, Node>, edges: seq<Edge>, i: nat, seen0: set<string>,
                  indegree0: map<string, int>, outgoing0: map<string, seq<string>>)
    returns (failure: Option<Reason>, seen: set<string>, indegree: map<string, int>, outgoing: map<string, seq<string>>)
    requires forall id | id in nodes :: IsIdentifier(id)
    requires i < |edges| && ReadSoFar(nodes, edges, i, seen0, indegree0, outgoing0)
    ensures failure.Some? ==> !LocallyValid(nodes, edges) && failure.value in {BadEdge, DuplicateEdge, LongCondition}
    ensures failure.None? ==> ReadSoFar(nodes, edges, i + 1, seen, indegree, outgoing)
  {
    seen, indegree, outgoing := seen0, indegree0, outgoing0;
    var edge := edges[i];
    failure := CheckEdge(nodes, edge, seen);
    if failure.Some? {
      RefusedEdge(nodes, edges, i, failure.value);
      return;
    }
    AcceptedEdge(nodes, edges, i, seen);
    GatherOne(nodes.Keys, Arcs(edges), i, indegree, outgoing);
    seen := seen + {EdgeKey(edge)};
    indegree := indegree[edge.target := indegree[edge.target] + 1];
    outgoing := outgoing[edge.source := Recorded(outgoing, edge.source) + [edge.target]];
  }

  lemma NothingRead(nodes: map<string, Node>, edges: seq<Edge>, indegree: map<string, int>)
    requires indegree.Keys == nodes.Keys && forall id | id in nodes :: indegree[id] == 0
    ensures ReadSoFar(nodes, edges, 0, {}, indegree, map[])
  {
  }

  lemma AllRead(nodes: map<string, Node>, edges: seq<Edge>, seen: set<string>, indegree: map<string, int>,
                outgoing: map<string, seq<string>>)
    requires ReadSoFar(nodes, edges, |edges|, seen, indegree, outgoing)
    ensures LocallyValid(nodes, edges) && Gathered(nodes.Keys, Arcs(edges), |edges|, indegree, outgoing)
  {
    assert edges[..|edges|] == edges;
  }

  /** The first pass over the edges: local checks, in-degrees and target lists. */
  method ScanEdges(nodes: map<string, Node>, edges: seq<Edge>)
    returns (failure: Option<Reason>, indegree: map<string, int>, outgoing: map<string, seq<string>>)
    requires forall id | id in nodes :: IsIdentifier(id)
    ensures failure.None? <==> LocallyValid(nodes, edges)
    ensures failure.Some? ==> failure.value in {BadEdge, DuplicateEdge, LongCondition}
    ensures failure.None? ==> Gathered(nodes.Keys, Arcs(edges), |edges|, indegree, outgoing)
  {
    failure, outgoing := None, map[];
    indegree := map id | id in nodes :: 0;
    var seen: set<string> := {};
    NothingRead(nodes, edges, indegree);
    for i := 0 to |edges|
      invariant failure.None? && ReadSoFar(nodes, edges, i, seen, indegree, outgoing)
    {
      failure, seen, indegree, outgoing := TakeEdge(nodes, edges, i, seen, indegree, outgoing);
      if failure.Some? {
        return;
      }
    }
    AllRead(nodes, edges, seen, indegree, outgoing);
  }

  lemma ArcsAreEdges(edges: seq<Edge>)
    ensures forall e | e in edges :: HasArc(Arcs(edges), e.source, e.target)
    ensures forall u, v | HasArc(Arcs(edges), u, v) :: exists e :: e in edges && e.source == u && e.target == v
  {
    forall e | e in edges ensures HasArc(Arcs(edges), e.source, e.target) {
      var i :| 0 <= i < |edges| && edges[i] == e;
      assert Arcs(edges)[i] == (e.source, e.target);
    }
    forall u, v | HasArc(Arcs(edges), u, v) ensures exists e :: e in edges && e.source == u && e.target == v {
      var i :| 0 <= i < |edges| && Arcs(edges)[i] == (u, v);
      assert edges[i] in edges;
    }
  }

  lemma DegreesTell(edges: seq<Edge>, id: string, targets: seq<string>)
    requires multiset(targets) == multiset(Targets(Arcs(edges), id))
    ensures Remaining(Arcs(edges), id, {}) == 0 <==> !HasIncoming(edges, id)
    ensures |targets| == 0 <==> !HasOutgoing(edges, id)
  {
    var arcs := Arcs(edges);
    NoneRemains(arcs, id, {});
    TargetsAreFollowers(arcs, id);
    ArcsAreEdges(edges);
    assert |multiset(targets)| == |multiset(Targets(arcs, id))|;
    if HasIncoming(edges, id) {
      var e :| e in edges && e.target == id;
      assert HasArc(arcs, e.source, e.target);
    }
    if a :| a in arcs && a.1 == id {
      assert HasArc(arcs, a.0, a.1);
    }
    if HasOutgoing(edges, id) {
      var e :| e in edges && e.source == id;
      assert HasArc(arcs, e.source, e.target);
    }
    if a :| a in arcs && a.0 == id {
      assert HasArc(arcs, a.0, a.1);
    }
  }

  /** A graph that passed the degree checks is rooted at its start node. */
  lemma StartIsRoot(nodes: map<string, Node>, start: string, edges: seq<Edge>)
    requires OnlyStart(nodes, start) && LocallyValid(nodes, edges) && Connected(nodes, edges)
    ensures Rooted(nodes.Keys, start, Arcs(edges)) && Closed(nodes.Keys, Arcs(edges))
  {
    var arcs := Arcs(edges);
    ArcsAreEdges(edges);
    forall a | a in arcs ensures a.0 in nodes && a.1 in nodes && a.1 != start {
      assert HasArc(arcs, a.0, a.1);
      var e :| e in edges && e.source == a.0 && e.target == a.1;
      assert Joins(nodes, e);
    }
    forall v | v in nodes && v != start ensures HasSource(arcs, v) {
      assert Linked(nodes, edges, v);
      var e :| e in edges && e.target == v;
      assert HasArc(arcs, e.source, e.target);
    }
  }

  /** The checks of one node, with its target list sorted when they pass. */
  method CheckNode(nodes: map<string, Node>, start: string, ghost edges: seq<Edge>, id: string, indegree: int,
                   targets: seq<string>)
    returns (failure: Option<Reason>, sorted: seq<string>)
    requires OnlyStart(nodes, start) && id in nodes && |Targets(Arcs(edges), start)| == 1
    requires indegree == Remaining(Arcs(edges), id, {}) && multiset(targets) == multiset(Targets(Arcs(edges), id))
    ensures failure == Some(NoIncoming) <==> id != start && !HasIncoming(edges, id)
    ensures failure == Some(NoOutgoing) ==> nodes[id].kind != End && !HasOutgoing(edges, id)
    ensures failure.None? <==> Linked(nodes, edges, id)
    ensures failure.None? || failure.value in {NoIncoming, NoOutgoing}
    ensures multiset(sorted) == multiset(targets)
  {
    DegreesTell(edges, id, targets);
    sorted := targets;
    if id != start && indegree == 0 {
      return Some(NoIncoming), sorted;
    }
    if nodes[id].kind != End && |targets| == 0 {
      return Some(NoOutgoing), sorted;
    }
    failure := None;
    sorted := SortStrings(targets);
  }

  /** The degree checks; each target list is sorted on the way. */
  method CheckDegrees(nodes: map<string, Node>, start: string, edges: seq<Edge>,
                      indegree: map<string, int>, outgoing0: map<string, seq<string>>)
    returns (failure: Option<Reason>, outgoing: map<string, seq<string>>)
    requires OnlyStart(nodes, start)
    requires Gathered(nodes.Keys, Arcs(edges), |edges|, indegree, outgoing0)
    ensures failure.None? <==> Connected(nodes, edges)
    ensures failure == Some(StartFanOut) ==> |Targets(Arcs(edges), start)| != 1
    ensures failure == Some(NoIncoming) ==> exists id :: id in nodes && id != start && !HasIncoming(edges, id)
    ensures failure == Some(NoOutgoing) ==> exists id :: id in nodes && nodes[id].kind != End && !HasOutgoing(edges, id)
    ensures failure.Some? ==> failure.value in {StartFanOut, NoIncoming, NoOutgoing}
    ensures Reordered(outgoing, outgoing0)
  {
    outgoing := outgoing0;
    if |Recorded(outgoing, start)| != 1 {
      assert !Linked(nodes, edges, start);
      return Some(StartFanOut), outgoing;
    }
    failure := None;
    var rest := nodes.Keys;
    while rest != {}
      invariant failure.None? && rest <= nodes.Keys
      invariant Reordered(outgoing, outgoing0)
      invariant forall id {:trigger Linked(nodes, edges, id)} | id in nodes && id !in rest :: Linked(nodes, edges, id)
      decreases rest
    {
      var id :| id in rest;
      var sorted;
      failure, sorted := CheckNode(nodes, start, edges, id, indegree[id], Recorded(outgoing, id));
      if failure.Some? {
        return;
      }
      outgoing := outgoing[id := sorted];
      rest := rest - {id};
    }
  }

  /**
   `validateEdges`: exact, and every reason it gives is true of the graph.  In particular a short count
   always stands for a real cycle.
   */
  method ValidateEdges(nodes: map<string, Node>, edges: seq<Edge>) returns (v: Verdict)
    requires exists s :: OnlyStart(nodes, s)
    requires forall id | id in nodes :: IsIdentifier(id)
    ensures v.Accepted? <==> ValidGraph(nodes, edges)
    ensures v.Refused? && v.reason in {BadEdge, DuplicateEdge, LongCondition} <==> !LocallyValid(nodes, edges)
    ensures v == Refused(StartFanOut) ==> exists s :: OnlyStart(nodes, s) && |Targets(Arcs(edges), s)| != 1
    ensures v == Refused(NoIncoming) ==> exists id :: id in nodes && nodes[id].kind != Start && !HasIncoming(edges, id)
    ensures v == Refused(NoOutgoing) ==> exists id :: id in nodes && nodes[id].kind != End && !HasOutgoing(edges, id)
    ensures v == Refused(Cyclic) <==> LocallyValid(nodes, edges) && Connected(nodes, edges) && !Acyclic(Arcs(edges))
  {
    ghost var s :| OnlyStart(nodes, s);
    var startID := "";
    var rest := nodes.Keys;
    while rest != {}
      invariant rest <= nodes.Keys && (s !in rest ==> startID == s)
      decreases rest
    {
      var id :| id in rest;
      if nodes[id].kind == Start {
        startID := id;
      }
      rest := rest - {id};
    }
    var failure, indegree, outgoing := ScanEdges(nodes, edges);
    if failure.Some? {
      return Refused(failure.value);
    }
    var sorted;
    failure, sorted := CheckDegrees(nodes, startID, edges, indegree, outgoing);
    if failure.Some? {
      return Refused(failure.value);
    }
    StartIsRoot(nodes, startID, edges);
    var visited := CountRemovable(nodes.Keys, startID, Arcs(edges), indegree, outgoing, sorted);
    assert |nodes.Keys| == |nodes|;
    v := if visited != |nodes| then Refused(Cyclic) else Accepted;
  }

  lemma {:induction false} CountKindZero(nodes: seq<Node>, kind: NodeType)
    requires CountKind(nodes, kind) == 0
    ensures forall i | 0 <= i < |nodes| :: nodes[i].kind != kind
  {
    if nodes != [] {
      CountKindZero(nodes[..|nodes| - 1], kind);
    }
  }

  lemma {:induction false} CountKindOne(nodes: seq<Node>, kind: NodeType) returns (i: nat)
    requires CountKind(nodes, kind) == 1
    ensures i < |nodes| && forall j | 0 <= j < |nodes| :: nodes[j].kind == kind <==> j == i
  {
    var front := nodes[..|nodes| - 1];
    if nodes[|nodes| - 1].kind == kind {
      i := |nodes| - 1;
      CountKindZero(front, kind);
    } else {
      i := CountKindOne(front, kind);
    }
  }

  lemma {:induction false} DistinctPrefix(nodes: seq<Node>, k: nat)
    requires DistinctIds(nodes) && k <= |nodes|
    ensures DistinctIds(nodes[..k])
  {
    if k < |nodes| {
      var front := nodes[..|nodes| - 1];
      DistinctPrefix(front, k);
      assert front[..k] == nodes[..k];
    } else {
      assert nodes[..k] == nodes;
    }
  }

  /** With distinct identifiers and one start node, the index has exactly that start node. */
  lemma IndexedStart(nodes: seq<Node>) returns (s: string)
    requires DistinctIds(nodes) && CountKind(nodes, Start) == 1
    ensures OnlyStart(Index(nodes), s)
  {
    var i := CountKindOne(nodes, Start);
    IndexFacts(nodes);
    IndexOfDistinct(nodes);
    s := nodes[i].id;
    assert nodes[i] in nodes;
    forall id | id in Index(nodes) ensures Index(nodes)[id].kind == Start <==> id == s {
      var n := Index(nodes)[id];
      var j :| 0 <= j < |nodes| && nodes[j] == n;
    }
  }

  /** The pass over the nodes: node checks, the index, and the start and end counts. */
  method ScanNodes(isJson: string -> bool, nodes: seq<Node>)
    returns (ok: bool, byID: map<string, Node>, startCount: nat, endCount: nat)
    ensures ok <==>
              && (forall n {:trigger ValidNode(isJson, n)} | n in nodes :: ValidNode(isJson, n))
              && DistinctIds(nodes)
    ensures ok ==> byID == Index(nodes) && startCount == CountKind(nodes, Start) && endCount == CountKind(nodes, End)
  {
    ok, byID, startCount, endCount := true, map[], 0, 0;
    for i := 0 to |nodes|
      invariant ok && DistinctIds(nodes[..i])
      invariant forall n {:trigger ValidNode(isJson, n)} | n in nodes[..i] :: ValidNode(isJson, n)
      invariant byID == Index(nodes[..i])
      invariant startCount == CountKind(nodes[..i], Start) && endCount == CountKind(nodes[..i], End)
    {
      var node := nodes[i];
      ghost var prefix := nodes[..i + 1];
      assert prefix[..i] == nodes[..i] && prefix[i] == node;
      if !ValidNode(isJson, node) {
        return false, byID, startCount, endCount;
      }
      if node.id in byID {
        if DistinctIds(nodes) {
          DistinctPrefix(nodes, i + 1);
        }
        return false, byID, startCount, endCount;
      }
      byID := byID[node.id := node];
      if node.kind == Start {
        startCount := startCount + 1;
      }
      if node.kind == End {
        endCount := endCount + 1;
      }
    }
    assert nodes[..|nodes|] == nodes;
  }

  /** `ValidateDefinition`: accepts exactly the valid definitions. */
  method ValidateDefinition(isJson: string -> bool, key: string, name: string, nodes: seq<Node>, edges: seq<Edge>)
    returns (accepted: bool)
    ensures accepted <==> ValidDefinition(isJson, key, name, nodes, edges)
  {
    if !IsIdentifier(key) || IsBlank(name) || |nodes| < 2 || |nodes| > 200 || |edges| > 500 {
      return false;
    }
    var ok, byID, startCount, endCount := ScanNodes(isJson, nodes);
    if !ok || startCount != 1 || endCount == 0 {
      return false;
    }
    ghost var s := IndexedStart(nodes);
    IdsAreIdentifiers(isJson, nodes);
    var verdict := ValidateEdges(byID, edges);
    accepted := verdict.Accepted?;
  }

  lemma IdsAreIdentifiers(isJson: string -> bool, nodes: seq<Node>)
    requires forall n {:trigger ValidNode(isJson, n)} | n in nodes :: ValidNode(isJson, n)
    ensures forall id | id in Index(nodes) :: IsIdentifier(id)
  {
    IndexFacts(nodes);
    forall id | id in Index(nodes) ensures IsIdentifier(id) {
      assert ValidNode(isJson, Index(nodes)[id]);
    }
  }

  // ---------- the rules of a definition, one by one ----------

  /** What a node needs, by its type. */
  predicate FollowsRules(isJson: string -> bool, n: Node) {
    && IsIdentifier(n.id) && !AllSpace(n.name) && n.kind in {Start, Approval, ServiceTask, Timer, End}
    && (n.kind == Approval ==>
          && n.assigneeType in {User, Role, Starter, Expression}
          && (n.assigneeType != Starter ==> !AllSpace(n.assignee)))
    && (n.kind == ServiceTask ==>
          && IsIdentifier(n.targetService) && IsFullMethod(n.fullMethod)
          && (n.compensationMethod != "" ==> IsFullMethod(n.compensationMethod))
          && (if n.requestTemplate == "" then isJson("{}") else isJson(n.requestTemplate)))
    && (n.kind == Timer ==> 1 <= n.timerSeconds <= 31536000)
    && (n.config != "" ==> isJson(n.config))
  }

  lemma RulesAre(isJson: string -> bool, n: Node)
    ensures ValidNode(isJson, n) <==> FollowsRules(isJson, n)
  {
    BlankIs(n.name);
    BlankIs(n.assignee);
  }

  lemma NodesFollowRules(isJson: string -> bool, nodes: seq<Node>)
    ensures (forall n {:trigger ValidNode(isJson, n)} | n in nodes :: ValidNode(isJson, n))
            <==> (forall n {:trigger FollowsRules(isJson, n)} | n in nodes :: FollowsRules(isJson, n))
  {
    forall n | n in nodes ensures ValidNode(isJson, n) <==> FollowsRules(isJson, n) {
      RulesAre(isJson, n);
    }
  }

  predicate IdsDiffer(nodes: seq<Node>) {
    forall i, j | 0 <= i < j < |nodes| :: nodes[i].id != nodes[j].id
  }

  lemma {:induction false} DistinctIdsAre(nodes: seq<Node>)
    ensures DistinctIds(nodes) <==> IdsDiffer(nodes)
  {
    if nodes != [] {
      var front, last := nodes[..|nodes| - 1], nodes[|nodes| - 1];
      DistinctIdsAre(front);
      IndexFacts(front);
      OneMoreDiffers(front, last);
      assert nodes == front + [last];
    }
  }

  lemma OneMoreDiffers(front: seq<Node>, last: Node)
    ensures IdsDiffer(front + [last]) <==> IdsDiffer(front) && forall n | n in front :: n.id != last.id
  {
    var nodes := front + [last];
    if IdsDiffer(nodes) {
      forall i, j | 0 <= i < j < |front| ensures front[i].id != front[j].id {
        assert nodes[i].id != nodes[j].id;
      }
      forall n | n in front ensures n.id != last.id {
        var i :| 0 <= i < |front| && front[i] == n;
        assert nodes[i].id != nodes[|front|].id;
      }
    }
  }

  /** Node `i` is the only one of its kind. */
  predicate IsOnly(nodes: seq<Node>, kind: NodeType, i: nat) {
    i < |nodes| && forall j | 0 <= j < |nodes| :: nodes[j].kind == kind <==> j == i
  }

  lemma OneCounts(nodes: seq<Node>, kind: NodeType)
    ensures CountKind(nodes, kind) == 1 <==> exists i: nat :: IsOnly(nodes, kind, i)
  {
    if CountKind(nodes, kind) == 1 {
      var i := CountKindOne(nodes, kind);
      assert IsOnly(nodes, kind, i);
    }
    if i: nat :| IsOnly(nodes, kind, i) {
      OnlyOneCounts(nodes, kind, i);
    }
  }

  lemma SomeCount(nodes: seq<Node>, kind: NodeType)
    ensures CountKind(nodes, kind) > 0 <==> exists n :: n in nodes && n.kind == kind
  {
    if CountKind(nodes, kind) == 0 {
      CountKindZero(nodes, kind);
    } else if forall n | n in nodes :: n.kind != kind {
      NoneCounts(nodes, kind);
    }
  }

  lemma {:induction false} NoneCounts(nodes: seq<Node>, kind: NodeType)
    requires forall j | 0 <= j < |nodes| :: nodes[j].kind != kind
    ensures CountKind(nodes, kind) == 0
  {
    if nodes != [] {
      NoneCounts(nodes[..|nodes| - 1], kind);
    }
  }

  lemma {:induction false} OnlyOneCounts(nodes: seq<Node>, kind: NodeType, i: nat)
    requires IsOnly(nodes, kind, i)
    ensures CountKind(nodes, kind) == 1
  {
    if i < |nodes| - 1 {
      OnlyOneCounts(nodes[..|nodes| - 1], kind, i);
    } else {
      NoneCounts(nodes[..i], kind);
    }
  }

  /**
   The valid definitions, rule by rule: the key, the name and the sizes, each node by its type, identifiers that differ,
   exactly one start and some end; and the edges join different nodes, none into the start or out of an end, differ in
   source, target or condition, leave the start once, enter every other node, leave every node but the ends, and form no
   path that returns to its beginning.
   */
  lemma DefinitionRules(isJson: string -> bool, key: string, name: string, nodes: seq<Node>, edges: seq<Edge>)
    ensures ValidDefinition(isJson, key, name, nodes, edges)
            <==>
              && IsIdentifier(key) && !AllSpace(name) && 2 <= |nodes| <= 200 && |edges| <= 500
              && (forall n {:trigger FollowsRules(isJson, n)} | n in nodes :: FollowsRules(isJson, n))
              && IdsDiffer(nodes)
              && (exists i: nat :: IsOnly(nodes, Start, i))
              && (exists n :: n in nodes && n.kind == End)
              && LocallyValid(Index(nodes), edges) && Connected(Index(nodes), edges) && Acyclic(Arcs(edges))
  {
    BlankIs(name);
    NodesFollowRules(isJson, nodes);
    DistinctIdsAre(nodes);
    OneCounts(nodes, Start);
    SomeCount(nodes, End);
  }

  // ---------- what acceptance guarantees ----------

  /** Every node of a valid graph is reached from the start node. */
  lemma EveryNodeIsReached(nodes: map<string, Node>, edges: seq<Edge>, start: string, v: string)
    requires ValidGraph(nodes, edges) && OnlyStart(nodes, start) && v in nodes
    ensures Reaches(Arcs(edges), start, v)
  {
    var arcs := Arcs(edges);
    var lost := set id | id in nodes && !Reaches(arcs, start, id);
    StartIsRoot(nodes, start, edges);
    ReachesItself(arcs, start);
    forall id | id in lost ensures HasSourceIn(arcs, lost, id) {
      assert HasSource(arcs, id);
      var a :| a in arcs && a.1 == id;
      assert HasArc(arcs, a.0, id);
      if a.0 !in lost {
        ReachesOn(arcs, start, a.0, id);
      }
    }
    if !Reaches(arcs, start, v) {
      assert v in lost;
      PrecededSetHasCycle(arcs, lost);
    }
  }

  /** From every node of a valid graph an end node is reached. */
  lemma EveryNodeCanEnd(nodes: map<string, Node>, edges: seq<Edge>, v: string)
    requires ValidGraph(nodes, edges) && v in nodes
    ensures exists end :: end in nodes && nodes[end].kind == End && Reaches(Arcs(edges), v, end)
  {
    var arcs := Arcs(edges);
    var stuck := set id | id in nodes && forall end | end in nodes && nodes[end].kind == End :: !Reaches(arcs, id, end);
    ArcsAreEdges(edges);
    forall id | id in stuck ensures HasTargetIn(arcs, stuck, id) {
      ReachesItself(arcs, id);
      assert Linked(nodes, edges, id);
      var e :| e in edges && e.source == id;
      assert Joins(nodes, e) && HasArc(arcs, id, e.target);
      if e.target !in stuck {
        var end :| end in nodes && nodes[end].kind == End && Reaches(arcs, e.target, end);
        ReachesFrom(arcs, id, e.target, end);
      }
    }
    if !exists end :: end in nodes && nodes[end].kind == End && Reaches(arcs, v, end) {
      assert v in stuck;
      FollowedSetHasCycle(arcs, stuck);
    }
  }

  lemma EdgesStayInside(nodes: map<string, Node>, edges: seq<Edge>, u: string, v: string)
    requires LocallyValid(nodes, edges) && HasArc(Arcs(edges), u, v)
    ensures u in nodes && v in nodes && nodes[u].kind != End && nodes[v].kind != Start
  {
    ArcsAreEdges(edges);
    var e :| e in edges && e.source == u && e.target == v;
    assert Joins(nodes, e);
  }

  lemma {:induction false} PathStaysInside(nodes: map<string, Node>, edges: seq<Edge>, p: seq<string>)
    requires LocallyValid(nodes, edges) && IsPath(Arcs(edges), p) && p[0] in nodes
    ensures forall x | x in p :: x in nodes
  {
    forall k | 0 <= k < |p| ensures p[k] in nodes {
      if k > 0 {
        assert HasArc(Arcs(edges), p[k - 1], p[k - 1 + 1]);
        EdgesStayInside(nodes, edges, p[k - 1], p[k]);
      }
    }
  }

  /** A path through a valid graph visits no node twice, so it is no longer than the node list. */
  lemma PathsAreShort(nodes: map<string, Node>, edges: seq<Edge>, p: seq<string>)
    requires ValidGraph(nodes, edges) && IsPath(Arcs(edges), p) && p[0] in nodes
    ensures Distinct(p) && |p| <= |nodes|
  {
    AcyclicPathIsDistinct(Arcs(edges), p);
    PathStaysInside(nodes, edges, p);
    DistinctIsShort(p, nodes.Keys);
    assert |nodes.Keys| == |nodes|;
  }
}
