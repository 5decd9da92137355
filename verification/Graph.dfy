/**
 Paths and cycles of a directed multigraph.  The graph is a sequence of arcs (source, target): a workflow
 graph may hold parallel arcs with different conditions.
 */
module Graph {

  predicate HasArc<V(==)>(arcs: seq<(V, V)>, u: V, v: V) {
    (u, v) in arcs
  }

  ghost predicate IsPath<V(!new)>(arcs: seq<(V, V)>, p: seq<V>) {
    p != [] && forall i | 0 <= i < |p| - 1 :: HasArc(arcs, p[i], p[i + 1])
  }

  /** No path of at least one edge returns to where it began. */
  ghost predicate Acyclic<V(!new)>(arcs: seq<(V, V)>) {
    forall p | IsPath(arcs, p) && |p| >= 2 :: p[0] != p[|p| - 1]
  }

  ghost predicate Reaches<V(!new)>(arcs: seq<(V, V)>, u: V, v: V) {
    exists p :: IsPath(arcs, p) && p[0] == u && p[|p| - 1] == v
  }

  lemma ReachesItself<V(!new)>(arcs: seq<(V, V)>, u: V)
    ensures Reaches(arcs, u, u)
  {
    var p := [u];
    assert IsPath(arcs, p) && p[0] == u && p[|p| - 1] == u;
  }

  lemma ReachesOn<V(!new)>(arcs: seq<(V, V)>, u: V, v: V, w: V)
    requires Reaches(arcs, u, v) && HasArc(arcs, v, w)
    ensures Reaches(arcs, u, w)
  {
    var p :| IsPath(arcs, p) && p[0] == u && p[|p| - 1] == v;
    var q := p + [w];
    assert IsPath(arcs, q) && q[0] == u && q[|q| - 1] == w;
  }

  lemma ReachesFrom<V(!new)>(arcs: seq<(V, V)>, u: V, v: V, w: V)
    requires HasArc(arcs, u, v) && Reaches(arcs, v, w)
    ensures Reaches(arcs, u, w)
  {
    var p :| IsPath(arcs, p) && p[0] == v && p[|p| - 1] == w;
    var q := [u] + p;
    assert IsPath(arcs, q) && q[0] == u && q[|q| - 1] == w;
  }

  predicate Differ<V(==)>(p: seq<V>, i: nat, j: nat)
    requires i < |p| && j < |p|
  {
    p[i] != p[j]
  }

  ghost predicate Distinct<V(!new)>(p: seq<V>) {
    forall i: nat, j: nat {:trigger Differ(p, i, j)} | i < j < |p| :: Differ(p, i, j)
  }

  lemma DistinctFront<V(!new)>(p: seq<V>)
    requires Distinct(p) && p != []
    ensures Distinct(p[..|p| - 1]) && p[|p| - 1] !in p[..|p| - 1]
  {
    var front := p[..|p| - 1];
    forall i: nat, j: nat | i < j < |front| ensures Differ(front, i, j) {
      assert Differ(p, i, j);
    }
    forall i: nat | i < |front| ensures front[i] != p[|p| - 1] {
      assert Differ(p, i, |p| - 1);
    }
  }

  lemma DistinctAppend<V(!new)>(p: seq<V>, v: V)
    requires Distinct(p) && v !in p
    ensures Distinct(p + [v])
  {
    forall i: nat, j: nat | i < j < |p| + 1 ensures Differ(p + [v], i, j) {
      if j < |p| {
        assert Differ(p, i, j);
      } else {
        assert p[i] in p;
      }
    }
  }

  lemma {:induction false} DistinctIsShort<V(!new)>(p: seq<V>, s: set<V>)
    requires Distinct(p) && forall x | x in p :: x in s
    ensures |p| <= |s|
  {
    if p != [] {
      var front, last := p[..|p| - 1], p[|p| - 1];
      DistinctFront(p);
      DistinctIsShort(front, s - {last});
    }
  }

  lemma AcyclicPathIsDistinct<V(!new)>(arcs: seq<(V, V)>, p: seq<V>)
    requires Acyclic(arcs) && IsPath(arcs, p)
    ensures Distinct(p)
  {
    forall i: nat, j: nat | i < j < |p| ensures Differ(p, i, j) {
      var q := p[i..j + 1];
      assert IsPath(arcs, q) by {
        forall k | 0 <= k < |q| - 1 ensures HasArc(arcs, q[k], q[k + 1]) {
          assert HasArc(arcs, p[i + k], p[i + k + 1]);
        }
      }
      assert q[0] == p[i] && q[|q| - 1] == p[j];
    }
  }

  /** A walk that stays in a finite set and is longer than it runs into a cycle. */
  lemma LongWalkHasCycle<V(!new)>(arcs: seq<(V, V)>, p: seq<V>, s: set<V>)
    requires IsPath(arcs, p) && (forall x | x in p :: x in s) && |p| > |s|
    ensures !Acyclic(arcs)
  {
    if Acyclic(arcs) {
      AcyclicPathIsDistinct(arcs, p);
      DistinctIsShort(p, s);
    }
  }

  ghost predicate HasSourceIn<V(!new)>(arcs: seq<(V, V)>, s: set<V>, v: V) {
    exists u :: u in s && HasArc(arcs, u, v)
  }

  ghost predicate HasTargetIn<V(!new)>(arcs: seq<(V, V)>, s: set<V>, u: V) {
    exists v :: v in s && HasArc(arcs, u, v)
  }

  ghost predicate Preceded<V(!new)>(arcs: seq<(V, V)>, s: set<V>) {
    forall v {:trigger HasSourceIn(arcs, s, v)} | v in s :: HasSourceIn(arcs, s, v)
  }

  ghost predicate Followed<V(!new)>(arcs: seq<(V, V)>, s: set<V>) {
    forall u {:trigger HasTargetIn(arcs, s, u)} | u in s :: HasTargetIn(arcs, s, u)
  }

  lemma {:induction false} WalkBack<V(!new)>(arcs: seq<(V, V)>, s: set<V>, v: V, n: nat) returns (p: seq<V>)
    requires v in s && Preceded(arcs, s)
    ensures IsPath(arcs, p) && |p| == n + 1 && forall x | x in p :: x in s
    decreases n
  {
    if n == 0 {
      p := [v];
    } else {
      var q := WalkBack(arcs, s, v, n - 1);
      assert HasSourceIn(arcs, s, q[0]);
      var w :| w in s && HasArc(arcs, w, q[0]);
      p := [w] + q;
    }
  }

  lemma {:induction false} WalkOn<V(!new)>(arcs: seq<(V, V)>, s: set<V>, u: V, n: nat) returns (p: seq<V>)
    requires u in s && Followed(arcs, s)
    ensures IsPath(arcs, p) && |p| == n + 1 && forall x | x in p :: x in s
    decreases n
  {
    if n == 0 {
      p := [u];
    } else {
      var q := WalkOn(arcs, s, u, n - 1);
      assert HasTargetIn(arcs, s, q[|q| - 1]);
      var w :| w in s && HasArc(arcs, q[|q| - 1], w);
      p := q + [w];
    }
  }

  /** In an acyclic graph some node of every non-empty finite set has no predecessor in the set. */
  lemma PrecededSetHasCycle<V(!new)>(arcs: seq<(V, V)>, s: set<V>)
    requires s != {} && Preceded(arcs, s)
    ensures !Acyclic(arcs)
  {
    var v :| v in s;
    var p := WalkBack(arcs, s, v, |s|);
    LongWalkHasCycle(arcs, p, s);
  }

  lemma FollowedSetHasCycle<V(!new)>(arcs: seq<(V, V)>, s: set<V>)
    requires s != {} && Followed(arcs, s)
    ensures !Acyclic(arcs)
  {
    var u :| u in s;
    var p := WalkOn(arcs, s, u, |s|);
    LongWalkHasCycle(arcs, p, s);
  }

  /** Every edge into a listed node comes from an earlier one. */
  ghost predicate Topological<V(!new)>(arcs: seq<(V, V)>, order: seq<V>) {
    forall i, u | 0 <= i < |order| && HasArc(arcs, u, order[i]) :: u in order[..i]
  }

  lemma {:induction false} PathRisesInOrder<V(!new)>(arcs: seq<(V, V)>, order: seq<V>, p: seq<V>, i: nat)
    requires Topological(arcs, order) && IsPath(arcs, p) && |p| >= 2
    requires i < |order| && order[i] == p[|p| - 1]
    ensures p[0] in order[..i]
    decreases |p|
  {
    var front := p[..|p| - 1];
    assert HasArc(arcs, p[|p| - 2], p[|p| - 2 + 1]);
    var j :| 0 <= j < i && order[j] == p[|p| - 2];
    if |p| > 2 {
      assert IsPath(arcs, front) by {
        forall k | 0 <= k < |front| - 1 ensures HasArc(arcs, front[k], front[k + 1]) {
          assert HasArc(arcs, p[k], p[k + 1]);
        }
      }
      PathRisesInOrder(arcs, order, front, j);
    }
  }

  /** A topological order of all edge targets rules out cycles. */
  lemma OrderedIsAcyclic<V(!new)>(arcs: seq<(V, V)>, order: seq<V>)
    requires Topological(arcs, order) && Distinct(order)
    requires forall a | a in arcs :: a.1 in order
    ensures Acyclic(arcs)
  {
    forall p | IsPath(arcs, p) && |p| >= 2 ensures p[0] != p[|p| - 1] {
      assert HasArc(arcs, p[|p| - 2], p[|p| - 2 + 1]);
      var i :| 0 <= i < |order| && order[i] == p[|p| - 1];
      PathRisesInOrder(arcs, order, p, i);
      var j :| 0 <= j < i && order[j] == p[0];
      assert Differ(order, j, i);
    }
  }
}
