/** Kahn's algorithm on a multigraph, by in-degree counts and target lists. */
module Kahn {
  import opened Graph

  ghost predicate Closed<V(!new)>(vertices: set<V>, arcs: seq<(V, V)>) {
    forall a | a in arcs :: a.0 in vertices && a.1 in vertices
  }

  /** `start` is the one vertex without an incoming arc. */
  ghost predicate Rooted<V(!new)>(vertices: set<V>, start: V, arcs: seq<(V, V)>) {
    && start in vertices
    && (forall a | a in arcs :: a.1 != start)
    && (forall v {:trigger HasSource(arcs, v)} | v in vertices && v != start :: HasSource(arcs, v))
  }

  ghost predicate HasSource<V(!new)>(arcs: seq<(V, V)>, v: V) {
    exists a :: a in arcs && a.1 == v
  }

  /** The targets of those of the first `n` arcs that leave `u`, one for each arc. */
  function TargetsUpTo<V(==)>(arcs: seq<(V, V)>, n: nat, u: V): seq<V>
    requires n <= |arcs|
  {
    if n == 0 then [] else
    TargetsUpTo(arcs, n - 1, u) + (if arcs[n - 1].0 == u then [arcs[n - 1].1] else [])
  }

  function Targets<V(==)>(arcs: seq<(V, V)>, u: V): seq<V> {
    TargetsUpTo(arcs, |arcs|, u)
  }

  /** The number of those of the first `n` arcs that go into `v` from outside `gone`. */
  ghost function RemainingUpTo<V(!new)>(arcs: seq<(V, V)>, n: nat, v: V, gone: set<V>): nat
    requires n <= |arcs|
  {
    if n == 0 then 0 else
    RemainingUpTo(arcs, n - 1, v, gone) + (if arcs[n - 1].1 == v && arcs[n - 1].0 !in gone then 1 else 0)
  }

  ghost function Remaining<V(!new)>(arcs: seq<(V, V)>, v: V, gone: set<V>): nat {
    RemainingUpTo(arcs, |arcs|, v, gone)
  }

  lemma {:induction false} RemainingIsZero<V(!new)>(arcs: seq<(V, V)>, n: nat, v: V, gone: set<V>)
    requires n <= |arcs|
    ensures RemainingUpTo(arcs, n, v, gone) == 0 <==> forall a | a in arcs[..n] && a.1 == v :: a.0 in gone
  {
    if n > 0 {
      RemainingIsZero(arcs, n - 1, v, gone);
      assert arcs[..n] == arcs[..n - 1] + [arcs[n - 1]];
    }
  }

  lemma NoneRemains<V(!new)>(arcs: seq<(V, V)>, v: V, gone: set<V>)
    ensures Remaining(arcs, v, gone) == 0 <==> forall a | a in arcs && a.1 == v :: a.0 in gone
  {
    RemainingIsZero(arcs, |arcs|, v, gone);
    assert arcs[..|arcs|] == arcs;
  }

  /** Removing a vertex takes one from the count for each of its arcs. */
  lemma {:induction false} RemainingAfter<V(!new)>(arcs: seq<(V, V)>, n: nat, v: V, gone: set<V>, id: V)
    requires n <= |arcs| && id !in gone
    ensures RemainingUpTo(arcs, n, v, gone)
            == RemainingUpTo(arcs, n, v, gone + {id}) + multiset(TargetsUpTo(arcs, n, id))[v]
  {
    if n > 0 {
      RemainingAfter(arcs, n - 1, v, gone, id);
    }
  }

  lemma {:induction false} TargetsAreArcs<V(!new)>(arcs: seq<(V, V)>, n: nat, u: V)
    requires n <= |arcs|
    ensures forall v :: v in TargetsUpTo(arcs, n, u) <==> exists i :: 0 <= i < n && arcs[i].0 == u && arcs[i].1 == v
    ensures TargetsUpTo(arcs, n, u) != [] <==> exists i :: 0 <= i < n && arcs[i].0 == u
  {
    if n > 0 {
      TargetsAreArcs(arcs, n - 1, u);
    }
  }

  lemma TargetsAreFollowers<V(!new)>(arcs: seq<(V, V)>, u: V)
    ensures forall v :: v in Targets(arcs, u) <==> HasArc(arcs, u, v)
    ensures Targets(arcs, u) != [] <==> exists a :: a in arcs && a.0 == u
  {
    TargetsAreArcs(arcs, |arcs|, u);
  }

  /** The outgoing targets recorded for a vertex; a missing entry stands for the empty list. */
  function Recorded<V(==)>(outgoing: map<V, seq<V>>, u: V): seq<V> {
    if u in outgoing then outgoing[u] else []
  }

  /** In-degrees and target lists of the first `n` arcs. */
  ghost predicate Gathered<V(!new)>(vertices: set<V>, arcs: seq<(V, V)>, n: nat, indegree: map<V, int>,
                                    outgoing: map<V, seq<V>>)
    requires n <= |arcs|
  {
    && indegree.Keys == vertices
    && (forall v | v in vertices :: indegree[v] == RemainingUpTo(arcs, n, v, {}))
    && (forall u :: Recorded(outgoing, u) == TargetsUpTo(arcs, n, u))
  }

  lemma GatherOne<V(!new)>(vertices: set<V>, arcs: seq<(V, V)>, n: nat, indegree: map<V, int>, outgoing: map<V, seq<V>>)
    requires n < |arcs| && Gathered(vertices, arcs, n, indegree, outgoing) && arcs[n].1 in vertices
    ensures var (u, v) := arcs[n];
            Gathered(vertices, arcs, n + 1, indegree[v := indegree[v] + 1], outgoing[u := Recorded(outgoing, u) + [v]])
  {
    var longer := outgoing[arcs[n].0 := Recorded(outgoing, arcs[n].0) + [arcs[n].1]];
    forall u ensures Recorded(longer, u) == TargetsUpTo(arcs, n + 1, u) {
      assert TargetsUpTo(arcs, n, u) + [] == TargetsUpTo(arcs, n, u);
    }
  }

  /** Two records list the same targets for every vertex, perhaps in another order. */
  ghost predicate Reordered<V(!new)>(a: map<V, seq<V>>, b: map<V, seq<V>>) {
    forall u {:trigger Recorded(a, u)} {:trigger Recorded(b, u)} :: multiset(Recorded(a, u)) == multiset(Recorded(b, u))
  }

  /** The vertices found so far, in order of discovery; those not yet taken away wait in the queue. */
  ghost predicate Frontier<V(!new)>(vertices: set<V>, arcs: seq<(V, V)>, indegree: map<V, int>, found: seq<V>) {
    && Distinct(found)
    && (forall x | x in found :: x in vertices)
    && indegree.Keys == vertices
    && (forall v | v in vertices :: indegree[v] == 0 <==> v in found)
    && Topological(arcs, found)
  }

  lemma FirstFrontier<V(!new)>(vertices: set<V>, start: V, arcs: seq<(V, V)>, indegree: map<V, int>)
    requires Rooted(vertices, start, arcs)
    requires indegree.Keys == vertices && forall v | v in vertices :: indegree[v] == Remaining(arcs, v, {})
    ensures Frontier(vertices, arcs, indegree, [start]) && PartlyReleased(vertices, arcs, indegree, {}, [])
  {
    forall v | v in vertices ensures indegree[v] == 0 <==> v == start {
      NoneRemains(arcs, v, {});
      assert v != start ==> HasSource(arcs, v);
    }
    NoneRemains(arcs, start, {});
  }

  lemma FrontierGrows<V(!new)>(arcs: seq<(V, V)>, found: seq<V>, gone: set<V>, v: V)
    requires Distinct(found) && Topological(arcs, found) && v !in found
    requires Remaining(arcs, v, gone) == 0 && forall x | x in gone :: x in found
    ensures Distinct(found + [v]) && Topological(arcs, found + [v])
  {
    NoneRemains(arcs, v, gone);
    DistinctAppend(found, v);
    var grown := found + [v];
    forall i, u | 0 <= i < |grown| && HasArc(arcs, u, grown[i]) ensures u in grown[..i] {
      assert grown[..|found|] == found;
      if i < |found| {
        assert grown[..i] == found[..i];
      }
    }
  }

  /** The in-degrees while the first `taken` of the arcs out of `id` have been taken away. */
  ghost predicate PartlyReleased<V(!new)>(vertices: set<V>, arcs: seq<(V, V)>, indegree: map<V, int>, gone: set<V>,
                                          taken: seq<V>)
  {
    indegree.Keys == vertices && forall v | v in vertices ::
      indegree[v] == Remaining(arcs, v, gone) - multiset(taken)[v]
  }

  lemma ReleasedCount<V(!new)>(arcs: seq<(V, V)>, id: V, targets: seq<V>, k: nat, gone: set<V>)
    requires multiset(targets) == multiset(Targets(arcs, id)) && id !in gone && k < |targets|
    ensures multiset(targets[..k + 1]) == multiset(targets[..k]) + multiset{targets[k]}
    ensures Remaining(arcs, targets[k], gone) >= Remaining(arcs, targets[k],
                                                           gone + {id}) + multiset(targets[..k + 1])[targets[k]]
    ensures HasArc(arcs, id, targets[k])
  {
    assert targets[..k + 1] == targets[..k] + [targets[k]];
    assert targets == targets[..k + 1] + targets[k + 1..];
    assert targets[k] in multiset(targets);
    TargetsAreFollowers(arcs, id);
    RemainingAfter(arcs, |arcs|, targets[k], gone, id);
  }

  lemma ReleaseOne<V(!new)>(vertices: set<V>, arcs: seq<(V, V)>, id: V, targets: seq<V>, k: nat,
                   indegree: map<V, int>, gone: set<V>, found: seq<V>)
    requires Closed(vertices, arcs)
    requires multiset(targets) == multiset(Targets(arcs, id)) && id !in gone && id in found && k < |targets|
    requires Frontier(vertices, arcs, indegree, found) && forall x | x in gone :: x in found
    requires PartlyReleased(vertices, arcs, indegree, gone, targets[..k])
    ensures targets[k] in vertices
    ensures var next := targets[k]; var lower := indegree[next := indegree[next] - 1];
            && PartlyReleased(vertices, arcs, lower, gone, targets[..k + 1])
            && Frontier(vertices, arcs, lower, if lower[next] == 0 then found + [next] else found)
  {
    var next := targets[k];
    ReleasedCount(arcs, id, targets, k, gone);
    if indegree[next] == 1 {
      FrontierGrows(arcs, found, gone + {id}, next);
    }
  }

  lemma AllReleased<V(!new)>(vertices: set<V>, arcs: seq<(V, V)>, id: V, targets: seq<V>, indegree: map<V, int>,
                             gone: set<V>)
    requires multiset(targets) == multiset(Targets(arcs, id)) && id !in gone
    requires PartlyReleased(vertices, arcs, indegree, gone, targets[..|targets|])
    ensures PartlyReleased(vertices, arcs, indegree, gone + {id}, [])
  {
    assert targets[..|targets|] == targets;
    forall v | v in vertices ensures indegree[v] == Remaining(arcs, v, gone + {id}) {
      RemainingAfter(arcs, |arcs|, v, gone, id);
    }
  }

  /** `queue` holds what was found after the first `done` vertices; `found` continues `found0`. */
  ghost predicate Queued<V(!new)>(found0: seq<V>, found: seq<V>, queue: seq<V>, done: nat) {
    found0 <= found && done <= |found| && queue == found[done..]
  }

  lemma QueuedGrows<V(!new)>(found0: seq<V>, found: seq<V>, queue: seq<V>, done: nat, v: V)
    requires Queued(found0, found, queue, done)
    ensures Queued(found0, found + [v], queue + [v], done)
  {
  }

  /** One round of the loop over the targets of a dequeued vertex. */
  method ReleaseTarget<V(==,!new)>(ghost vertices: set<V>, ghost arcs: seq<(V, V)>, ghost id: V, targets: seq<V>,
                                   k: nat,
                       indegree0: map<V, int>, queue0: seq<V>, ghost gone: set<V>, ghost found0: seq<V>,
                       ghost first: seq<V>, ghost done: nat)
    returns (indegree: map<V, int>, queue: seq<V>, ghost found: seq<V>)
    requires Closed(vertices, arcs)
    requires multiset(targets) == multiset(Targets(arcs, id)) && id !in gone && id in found0 && k < |targets|
    requires Frontier(vertices, arcs, indegree0, found0) && forall x | x in gone :: x in found0
    requires PartlyReleased(vertices, arcs, indegree0, gone, targets[..k])
    requires Queued(first, found0, queue0, done)
    ensures Frontier(vertices, arcs, indegree, found)
    ensures Queued(first, found, queue, done)
    ensures PartlyReleased(vertices, arcs, indegree, gone, targets[..k + 1])
  {
    ReleaseOne(vertices, arcs, id, targets, k, indegree0, gone, found0);
    var next := targets[k];
    indegree, queue, found := indegree0[next := indegree0[next] - 1], queue0, found0;
    if indegree[next] == 0 {
      QueuedGrows(first, found, queue, done, next);
      queue := queue + [next];
      found := found + [next];
    }
  }

  /** Takes the arcs of one dequeued vertex away and queues every vertex that loses its last one. */
  method Release<V(==,!new)>(ghost vertices: set<V>, ghost arcs: seq<(V, V)>, ghost id: V, targets: seq<V>,
                 indegree0: map<V, int>, queue0: seq<V>, ghost gone: set<V>, ghost found0: seq<V>, ghost done: nat)
    returns (indegree: map<V, int>, queue: seq<V>, ghost found: seq<V>)
    requires Closed(vertices, arcs)
    requires multiset(targets) == multiset(Targets(arcs, id)) && id !in gone && id in found0
    requires Frontier(vertices, arcs, indegree0, found0) && forall x | x in gone :: x in found0
    requires PartlyReleased(vertices, arcs, indegree0, gone, [])
    requires Queued(found0, found0, queue0, done)
    ensures Frontier(vertices, arcs, indegree, found)
    ensures Queued(found0, found, queue, done)
    ensures PartlyReleased(vertices, arcs, indegree, gone + {id}, [])
  {
    indegree, queue, found := indegree0, queue0, found0;
    assert targets[..0] == [];
    for k := 0 to |targets|
      invariant Frontier(vertices, arcs, indegree, found)
      invariant Queued(found0, found, queue, done)
      invariant PartlyReleased(vertices, arcs, indegree, gone, targets[..k])
    {
      indegree, queue, found := ReleaseTarget(vertices, arcs, id, targets, k, indegree, queue, gone, found, found0,
                                              done);
    }
    AllReleased(vertices, arcs, id, targets, indegree, gone);
  }

  ghost function Members<V(!new)>(s: seq<V>): set<V> {
    set x | x in s
  }

  /** The next vertex of the queue has not been taken away before. */
  lemma NextIsNew<V(!new)>(found: seq<V>, k: nat)
    requires Distinct(found) && k < |found|
    ensures found[k] !in Members(found[..k])
  {
    forall i: nat | i < k ensures found[i] != found[k] {
      assert Differ(found, i, k);
    }
  }

  lemma TakenGrows<V(!new)>(found: seq<V>, longer: seq<V>, k: nat)
    requires found <= longer && k < |found|
    ensures Members(longer[..k + 1]) == Members(found[..k]) + {found[k]}
  {
    assert longer[..k + 1] == found[..k] + [found[k]];
  }

  /** Kahn's count of the vertices that can be taken away one after another with no arc left into them. */
  method CountRemovable<V(==,!new)>(vertices: set<V>, start: V, ghost arcs: seq<(V, V)>,
                        indegree0: map<V, int>, ghost gathered: map<V, seq<V>>, outgoing: map<V, seq<V>>)
    returns (visited: nat)
    requires Rooted(vertices, start, arcs) && Closed(vertices, arcs)
    requires Gathered(vertices, arcs, |arcs|, indegree0, gathered) && Reordered(outgoing, gathered)
    ensures visited == |vertices| <==> Acyclic(arcs)
  {
    var indegree := indegree0;
    var queue := [start];
    visited := 0;
    ghost var found := [start];
    FirstFrontier(vertices, start, arcs, indegree);
    assert Members(found[..0]) == {};
    while queue != []
      invariant visited <= |found| && queue == found[visited..]
      invariant Frontier(vertices, arcs, indegree, found)
      invariant PartlyReleased(vertices, arcs, indegree, Members(found[..visited]), [])
      decreases |vertices| - visited
    {
      var id := queue[0];
      NextIsNew(found, visited);
      FoundIsBounded(vertices, arcs, indegree, found);
      ghost var before := found;
      indegree, queue, found :=
        Release(vertices, arcs, id, Recorded(outgoing, id), indegree, queue[1..], Members(found[..visited]), found,
                visited + 1);
      TakenGrows(before, found, visited);
      visited := visited + 1;
    }
    assert found[..visited] == found;
    FoundDecides(vertices, arcs, indegree, found);
  }

  lemma FoundIsBounded<V(!new)>(vertices: set<V>, arcs: seq<(V, V)>, indegree: map<V, int>, found: seq<V>)
    requires Frontier(vertices, arcs, indegree, found)
    ensures |found| <= |vertices|
  {
    DistinctIsShort(found, vertices);
  }

  /** When the queue is empty, a full count is a topological order and a short one leaves a cycle behind. */
  lemma FoundDecides<V(!new)>(vertices: set<V>, arcs: seq<(V, V)>, indegree: map<V, int>, found: seq<V>)
    requires Closed(vertices, arcs) && Frontier(vertices, arcs, indegree, found)
    requires PartlyReleased(vertices, arcs, indegree, Members(found), [])
    ensures |found| == |vertices| <==> Acyclic(arcs)
  {
    var gone := Members(found);
    DistinctCount(found);
    var left := vertices - gone;
    assert vertices == left + gone;
    if left == {} {
      forall a | a in arcs ensures a.1 in found {
        assert a.1 in gone;
      }
      OrderedIsAcyclic(arcs, found);
    } else {
      forall v | v in left ensures HasSourceIn(arcs, left, v) {
        NoneRemains(arcs, v, gone);
        var a :| a in arcs && a.1 == v && a.0 !in gone;
        assert HasArc(arcs, a.0, v);
      }
      PrecededSetHasCycle(arcs, left);
    }
  }

  lemma {:induction false} DistinctCount<V(!new)>(s: seq<V>)
    requires Distinct(s)
    ensures |Members(s)| == |s|
  {
    if s != [] {
      var front, last := s[..|s| - 1], s[|s| - 1];
      DistinctFront(s);
      DistinctCount(front);
      assert Members(s) == Members(front) + {last};
    }
  }
}
