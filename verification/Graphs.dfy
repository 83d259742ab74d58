/** Hop distances in the router graph: the yardstick that every routing table is measured against. */
module Graphs {
  /** Router identifiers are below `n`; only those in `nodes` are in use.  A pair (u, v) in `links` is a
      queue that router u keeps towards router v. */
  datatype Graph = Graph(n: nat, nodes: set<nat>, links: set<(nat, nat)>)

  ghost predicate WellFormed(g: Graph) {
    && (forall v :: v in g.nodes ==> v < g.n)
    && (forall u, v :: (u, v) in g.links ==> u in g.nodes && v in g.nodes)
  }

  /** A walk of exactly k links leads from u to v. */
  ghost predicate Reaches(g: Graph, u: nat, v: nat, k: nat)
    decreases k
  {
    if k == 0 then u == v
    else exists w :: w in g.nodes && (w, v) in g.links && Reaches(g, u, w, k - 1)
  }

  ghost predicate Reachable(g: Graph, u: nat, v: nat) {
    exists k: nat :: Reaches(g, u, v, k)
  }

  ghost predicate Connected(g: Graph) {
    forall u, v {:trigger Reachable(g, u, v)} :: u in g.nodes && v in g.nodes ==> Reachable(g, u, v)
  }

  ghost predicate IsDist(g: Graph, u: nat, v: nat, d: nat) {
    Reaches(g, u, v, d) && forall k: nat :: Reaches(g, u, v, k) ==> d <= k
  }

  lemma {:induction false} DistExists(g: Graph, u: nat, v: nat, k: nat)
    requires Reaches(g, u, v, k)
    ensures exists d: nat :: IsDist(g, u, v, d)
  {
    if j: nat :| j < k && Reaches(g, u, v, j) {
      DistExists(g, u, v, j);
    } else {
      assert IsDist(g, u, v, k);
    }
  }

  /** The number of links on a shortest walk. */
  ghost function Dist(g: Graph, u: nat, v: nat): (d: nat)
    requires Reachable(g, u, v)
    ensures IsDist(g, u, v, d)
  {
    var k: nat :| Reaches(g, u, v, k);
    DistExists(g, u, v, k);
    var d: nat :| IsDist(g, u, v, d);
    d
  }

  lemma ReachesStep(g: Graph, u: nat, w: nat, v: nat, k: nat)
    requires Reaches(g, u, w, k) && w in g.nodes && (w, v) in g.links
    ensures Reaches(g, u, v, k + 1)
  {
  }

  /** A link in front of a walk. */
  lemma {:induction false} ReachesFrom(g: Graph, u: nat, w: nat, v: nat, k: nat)
    requires u in g.nodes && (u, w) in g.links && Reaches(g, w, v, k)
    ensures Reaches(g, u, v, k + 1)
    decreases k
  {
    if k == 0 {
      assert Reaches(g, u, u, 0);
      ReachesStep(g, u, u, v, 0);
    } else {
      var x :| x in g.nodes && (x, v) in g.links && Reaches(g, w, x, k - 1);
      ReachesFrom(g, u, w, x, k - 1);
    }
  }

  /** One link closer on a shortest walk is one hop less. */
  lemma DistPrefix(g: Graph, u: nat, w: nat, v: nat, d: nat)
    requires IsDist(g, u, v, d + 1)
    requires w in g.nodes && (w, v) in g.links && Reaches(g, u, w, d)
    ensures IsDist(g, u, w, d)
  {
    forall k: nat | Reaches(g, u, w, k) ensures d <= k {
      ReachesStep(g, u, w, v, k);
    }
  }

  /** A shortest walk of d links visits d + 1 different routers. */
  lemma {:induction false} ShortestWalkNodes(g: Graph, u: nat, v: nat, d: nat) returns (s: set<nat>)
    requires WellFormed(g) && u in g.nodes && v in g.nodes
    requires IsDist(g, u, v, d)
    ensures s <= g.nodes && |s| == d + 1
    ensures forall x :: x in s ==> exists e: nat :: e <= d && IsDist(g, u, x, e)
    decreases d
  {
    if d == 0 {
      s := {v};
    } else {
      var w :| w in g.nodes && (w, v) in g.links && Reaches(g, u, w, d - 1);
      DistPrefix(g, u, w, v, d - 1);
      var t := ShortestWalkNodes(g, u, w, d - 1);
      assert v !in t;
      s := t + {v};
    }
  }

  lemma SubsetSize(s: set<nat>, t: set<nat>)
    requires s <= t
    ensures |s| <= |t|
  {
    assert t == s + (t - s);
  }

  /** Every hop distance is below the number of routers. */
  lemma DistBelowNodeCount(g: Graph, u: nat, v: nat)
    requires WellFormed(g) && u in g.nodes && v in g.nodes && Reachable(g, u, v)
    ensures Dist(g, u, v) < |g.nodes|
  {
    var s := ShortestWalkNodes(g, u, v, Dist(g, u, v));
    SubsetSize(s, g.nodes);
  }

  // ---------- links in both directions ----------

  lemma {:induction false} Joined(g: Graph, u: nat, w: nat, v: nat, j: nat, k: nat)
    requires Reaches(g, u, w, j) && Reaches(g, w, v, k)
    ensures Reaches(g, u, v, j + k)
    decreases k
  {
    if k > 0 {
      var x :| x in g.nodes && (x, v) in g.links && Reaches(g, w, x, k - 1);
      Joined(g, u, w, x, j, k - 1);
      ReachesStep(g, u, x, v, j + k - 1);
    }
  }

  lemma {:induction false} Backwards(g: Graph, u: nat, v: nat, k: nat)
    requires WellFormed(g) && forall x, y :: (x, y) in g.links ==> (y, x) in g.links
    requires Reaches(g, u, v, k) && v in g.nodes
    ensures Reaches(g, v, u, k)
    decreases k
  {
    if k > 0 {
      var x :| x in g.nodes && (x, v) in g.links && Reaches(g, u, x, k - 1);
      Backwards(g, u, x, k - 1);
      ReachesFrom(g, v, x, u, k - 1);
    }
  }

  /** If every link has its way back and one router reaches all, then each reaches each. */
  lemma ConnectedFrom(g: Graph, root: nat)
    requires WellFormed(g) && forall x, y :: (x, y) in g.links ==> (y, x) in g.links
    requires forall v :: v in g.nodes ==> Reachable(g, root, v)
    ensures Connected(g)
  {
    forall u, v | u in g.nodes && v in g.nodes ensures Reachable(g, u, v) {
      var j: nat :| Reaches(g, root, u, j);
      var k: nat :| Reaches(g, root, v, k);
      Backwards(g, root, u, j);
      Joined(g, u, root, v, j, k);
    }
  }
}
