/** The table construction of the emulated routers as a function of the topology alone, and why its first
    hops lie on shortest paths. */
module Dijkstra {
  import opened Graphs

  const INFINITY: nat := 65535

  /** What one run leaves in the shared router records: tentative distances, visited routers, and the
      predecessors that this run has set. */
  datatype Labels = Labels(dist: map<nat, nat>, done: set<nat>, pred: map<nat, nat>)

  ghost function Start(g: Graph, s: nat): Labels {
    Labels(map v | v in g.nodes :: if v == s then 0 else INFINITY, {}, map[])
  }

  ghost predicate Total(g: Graph, l: Labels) {
    WellFormed(g) && l.dist.Keys == g.nodes
  }

  /** The value a candidate has to beat. */
  ghost function PickBound(g: Graph, l: Labels, b: nat): nat
    requires Total(g, l) && (b == g.n || b in g.nodes)
  {
    if b == g.n then INFINITY + 1 else l.dist[b]
  }

  /** The unvisited router below index i with the least distance, the first one among equals; g.n if none. */
  ghost function Pick(g: Graph, l: Labels, i: nat): (u: nat)
    requires Total(g, l) && i <= g.n
    ensures u == g.n || u in g.nodes - l.done
  {
    if i == 0 then g.n else
      var b := Pick(g, l, i - 1);
      if i - 1 in g.nodes && i - 1 !in l.done && l.dist[i - 1] < PickBound(g, l, b) then i - 1 else b
  }

  ghost function Relax(g: Graph, l: Labels, u: nat, v: nat): (r: Labels)
    requires Total(g, l) && u in g.nodes
    ensures Total(g, r) && r.done == l.done
  {
    if (u, v) in g.links && l.dist[v] > l.dist[u] + 1
    then l.(dist := l.dist[v := l.dist[u] + 1], pred := l.pred[v := u])
    else l
  }

  /** All links of u to routers below j, in order. */
  ghost function RelaxTo(g: Graph, l: Labels, u: nat, j: nat): (r: Labels)
    requires Total(g, l) && u in g.nodes
    ensures Total(g, r) && r.done == l.done
  {
    if j == 0 then l else Relax(g, RelaxTo(g, l, u, j - 1), u, j - 1)
  }

  ghost function Visit(g: Graph, l: Labels): (r: Labels)
    requires Total(g, l)
    ensures Total(g, r)
  {
    var u := Pick(g, l, g.n);
    if u == g.n then l else
      var r := RelaxTo(g, l, u, g.n);
      r.(done := r.done + {u})
  }

  ghost function Visits(g: Graph, s: nat, i: nat): (r: Labels)
    requires WellFormed(g)
    ensures Total(g, r)
  {
    if i == 0 then Start(g, s) else Visit(g, Visits(g, s, i - 1))
  }

  /** The labels after one visit per router. */
  ghost function FinalLabels(g: Graph, s: nat): (r: Labels)
    requires WellFormed(g)
    ensures Total(g, r)
  {
    Visits(g, s, |g.nodes|)
  }

  // ---------- the invariant ----------

  ghost predicate Bounded(g: Graph, s: nat, l: Labels) {
    && Total(g, l) && s in g.nodes && l.dist[s] == 0
    && forall v :: v in g.nodes ==> l.dist[v] <= INFINITY
  }

  ghost predicate LinksRelaxed(g: Graph, l: Labels)
    requires Total(g, l)
  {
    forall u, v :: u in l.done && (u, v) in g.links ==> l.dist[v] <= l.dist[u] + 1
  }

  /** Visits happen in order of distance. */
  ghost predicate Ordered(g: Graph, l: Labels, act: set<nat>)
    requires Total(g, l) && act <= g.nodes
  {
    forall u, v :: u in act && v in g.nodes - act ==> l.dist[u] <= l.dist[v]
  }

  ghost predicate PredOk(g: Graph, l: Labels, act: set<nat>, v: nat)
    requires Total(g, l) && v in g.nodes
  {
    v in l.pred && l.pred[v] in act && l.pred[v] in g.nodes && (l.pred[v], v) in g.links
    && l.dist[v] == l.dist[l.pred[v]] + 1
  }

  ghost predicate PredsOk(g: Graph, s: nat, l: Labels, act: set<nat>)
    requires Total(g, l)
  {
    forall v {:trigger PredOk(g, l, act, v)} ::
      v in g.nodes && v != s && l.dist[v] < INFINITY ==> PredOk(g, l, act, v)
  }

  /** `act` holds the visited routers and, during a visit, the one being visited. */
  ghost predicate Sound(g: Graph, s: nat, l: Labels, act: set<nat>) {
    && Bounded(g, s, l) && l.done <= act <= g.nodes
    && LinksRelaxed(g, l) && Ordered(g, l, act) && PredsOk(g, s, l, act)
  }

  lemma {:induction false} PickIsLeast(g: Graph, l: Labels, i: nat)
    requires Total(g, l) && i <= g.n
    requires forall v :: v in g.nodes ==> l.dist[v] <= INFINITY
    ensures var u := Pick(g, l, i);
            && (u == g.n ==> forall v :: v in g.nodes - l.done ==> v >= i)
            && (u != g.n ==> forall v :: v in g.nodes - l.done && v < i ==> l.dist[u] <= l.dist[v])
            && (u != g.n ==> u < i && forall v :: v in g.nodes - l.done && v < u ==> l.dist[u] < l.dist[v])
  {
    if i > 0 {
      PickIsLeast(g, l, i - 1);
    }
  }

  /** Only a link that shortens the way changes the labels: the first of several equally short ways stays. */
  lemma RelaxOnlyShortens(g: Graph, l: Labels, u: nat, v: nat)
    requires Total(g, l) && u in g.nodes
    ensures var r := Relax(g, l, u, v);
            if r == l then (u, v) !in g.links || l.dist[v] <= l.dist[u] + 1
            else (u, v) in g.links && r.dist[v] == l.dist[u] + 1 < l.dist[v] && v in r.pred && r.pred[v] == u
                 && forall w :: w in g.nodes && w != v ==>
                                  r.dist[w] == l.dist[w] && (w in r.pred <==> w in l.pred)
                                  && (w in l.pred ==> r.pred[w] == l.pred[w])
  {
  }

  /** u is the router being visited: unvisited, and no nearer than any visited one. */
  ghost predicate Visiting(g: Graph, s: nat, l: Labels, u: nat) {
    && Total(g, l) && u in g.nodes - l.done && Sound(g, s, l, l.done + {u})
    && forall a :: a in l.done ==> l.dist[a] <= l.dist[u]
  }

  lemma RelaxKeepsPreds(g: Graph, s: nat, l: Labels, u: nat, v: nat)
    requires Visiting(g, s, l, u) && Relax(g, l, u, v) != l
    ensures PredsOk(g, s, Relax(g, l, u, v), l.done + {u})
  {
    var r := Relax(g, l, u, v);
    assert v !in l.done + {u};
    forall w | w in g.nodes && w != s && r.dist[w] < INFINITY
      ensures PredOk(g, r, l.done + {u}, w)
    {
      assert w != v ==> PredOk(g, l, l.done + {u}, w);
    }
  }

  lemma RelaxKeepsVisiting(g: Graph, s: nat, l: Labels, u: nat, v: nat)
    requires Visiting(g, s, l, u)
    ensures var r := Relax(g, l, u, v);
            && Visiting(g, s, r, u) && r.dist[u] == l.dist[u]
            && (forall w :: w in g.nodes ==> r.dist[w] <= l.dist[w])
            && ((u, v) in g.links ==> r.dist[v] <= r.dist[u] + 1)
  {
    var r := Relax(g, l, u, v);
    if r != l {
      assert v !in l.done + {u};
      RelaxKeepsPreds(g, s, l, u, v);
      assert Ordered(g, r, l.done + {u});
      assert LinksRelaxed(g, r);
    }
  }

  ghost predicate RelaxedBelow(g: Graph, l: Labels, u: nat, j: nat)
    requires Total(g, l) && u in g.nodes
  {
    forall w :: w < j && (u, w) in g.links ==> l.dist[w] <= l.dist[u] + 1
  }

  lemma RelaxKeepsBelow(g: Graph, s: nat, q: Labels, u: nat, j: nat)
    requires Visiting(g, s, q, u) && RelaxedBelow(g, q, u, j)
    ensures var r := Relax(g, q, u, j);
            Visiting(g, s, r, u) && r.dist[u] == q.dist[u] && RelaxedBelow(g, r, u, j + 1)
  {
    RelaxKeepsVisiting(g, s, q, u, j);
  }

  lemma {:induction false} RelaxToKeepsVisiting(g: Graph, s: nat, l: Labels, u: nat, j: nat)
    requires Visiting(g, s, l, u)
    ensures var r := RelaxTo(g, l, u, j);
            && Visiting(g, s, r, u) && r.dist[u] == l.dist[u]
            && RelaxedBelow(g, r, u, j)
  {
    hide Sound;
    hide Relax;
    if j > 0 {
      var q := RelaxTo(g, l, u, j - 1);
      RelaxToKeepsVisiting(g, s, l, u, j - 1);
      RelaxKeepsBelow(g, s, q, u, j - 1);
    }
  }

  lemma BeginVisit(g: Graph, s: nat, l: Labels, u: nat)
    requires Sound(g, s, l, l.done) && u in g.nodes - l.done
    requires forall v :: v in g.nodes - l.done ==> l.dist[u] <= l.dist[v]
    ensures Visiting(g, s, l, u)
  {
    forall v | v in g.nodes && v != s && l.dist[v] < INFINITY ensures PredOk(g, l, l.done + {u}, v) {
      assert PredOk(g, l, l.done, v);
    }
  }

  lemma EndVisit(g: Graph, s: nat, l: Labels, u: nat)
    requires Visiting(g, s, l, u)
    requires forall w :: (u, w) in g.links ==> l.dist[w] <= l.dist[u] + 1
    ensures var r := l.(done := l.done + {u}); Sound(g, s, r, r.done)
  {
    var r := l.(done := l.done + {u});
    forall v | v in g.nodes && v != s && r.dist[v] < INFINITY ensures PredOk(g, r, r.done, v) {
      assert PredOk(g, l, l.done + {u}, v);
    }
  }

  lemma VisitKeepsSound(g: Graph, s: nat, l: Labels)
    requires Sound(g, s, l, l.done) && l.done != g.nodes
    ensures var r := Visit(g, l);
            Sound(g, s, r, r.done) && |r.done| == |l.done| + 1
  {
    var u := Pick(g, l, g.n);
    PickIsLeast(g, l, g.n);
    assert u != g.n by {
      var x :| x in g.nodes - l.done;
    }
    BeginVisit(g, s, l, u);
    RelaxToKeepsVisiting(g, s, l, u, g.n);
    EndVisit(g, s, RelaxTo(g, l, u, g.n), u);
  }

  lemma StartSound(g: Graph, s: nat)
    requires WellFormed(g) && s in g.nodes
    ensures Sound(g, s, Start(g, s), {})
  {
  }

  lemma {:induction false} VisitsSound(g: Graph, s: nat, i: nat)
    requires WellFormed(g) && s in g.nodes && i <= |g.nodes|
    ensures var r := Visits(g, s, i);
            Sound(g, s, r, r.done) && |r.done| == i
  {
    hide Sound;
    hide Visit;
    if i == 0 {
      StartSound(g, s);
    } else {
      VisitsSound(g, s, i - 1);
      VisitKeepsSound(g, s, Visits(g, s, i - 1));
    }
  }

  lemma RunVisitsAll(g: Graph, s: nat)
    requires WellFormed(g) && s in g.nodes
    ensures var r := FinalLabels(g, s); Sound(g, s, r, r.done) && r.done == g.nodes
  {
    VisitsSound(g, s, |g.nodes|);
    var d := Visits(g, s, |g.nodes|).done;
    if d != g.nodes {
      var x :| x in g.nodes - d;
      SubsetSize(d + {x}, g.nodes);
    }
  }

  lemma {:induction false} AtMostWalk(g: Graph, s: nat, l: Labels, v: nat, k: nat)
    requires Sound(g, s, l, l.done) && l.done == g.nodes
    requires v in g.nodes && Reaches(g, s, v, k)
    ensures l.dist[v] <= k
    decreases k
  {
    if k > 0 {
      var w :| w in g.nodes && (w, v) in g.links && Reaches(g, s, w, k - 1);
      AtMostWalk(g, s, l, w, k - 1);
    }
  }

  /** Following predecessors back to the source spells out a walk of the labelled length. */
  lemma {:induction false} PredWalk(g: Graph, s: nat, l: Labels, v: nat)
    requires Sound(g, s, l, l.done) && v in g.nodes && l.dist[v] < INFINITY
    ensures Reaches(g, s, v, l.dist[v])
    decreases l.dist[v]
  {
    if v != s {
      assert PredOk(g, l, l.done, v);
      PredWalk(g, s, l, l.pred[v]);
      ReachesStep(g, s, l.pred[v], v, l.dist[v] - 1);
    } else {
      assert Reaches(g, s, s, 0);
    }
  }

  // ---------- what a table is worth ----------

  /** In a connected topology of at most 65535 routers the labels are the hop distances. */
  lemma RunComputesDist(g: Graph, s: nat, v: nat)
    requires WellFormed(g) && Connected(g) && |g.nodes| <= INFINITY
    requires s in g.nodes && v in g.nodes
    ensures FinalLabels(g, s).dist[v] == Dist(g, s, v)
  {
    RunVisitsAll(g, s);
    DistBelowNodeCount(g, s, v);
    AtMostWalk(g, s, FinalLabels(g, s), v, Dist(g, s, v));
    PredWalk(g, s, FinalLabels(g, s), v);
  }

  /** Every router but the source has a predecessor that is one hop nearer to the source. */
  ghost predicate Complete(g: Graph, s: nat, l: Labels) {
    && Total(g, l) && s in g.nodes && l.dist[s] == 0
    && forall v {:trigger PredOk(g, l, g.nodes, v)} :: v in g.nodes && v != s ==> PredOk(g, l, g.nodes, v)
  }

  lemma RunIsComplete(g: Graph, s: nat)
    requires WellFormed(g) && Connected(g) && |g.nodes| <= INFINITY && s in g.nodes
    ensures Complete(g, s, FinalLabels(g, s))
  {
    RunVisitsAll(g, s);
    forall v | v in g.nodes && v != s ensures PredOk(g, FinalLabels(g, s), g.nodes, v) {
      RunComputesDist(g, s, v);
      DistBelowNodeCount(g, s, v);
    }
  }

  /** Where the walk along the predecessors stands one link away from the source. */
  ghost function FirstHop(g: Graph, s: nat, l: Labels, v: nat): (h: nat)
    requires Complete(g, s, l) && v in g.nodes && v != s
    ensures h in g.nodes && h != s && (s, h) in g.links
    decreases l.dist[v]
  {
    assert PredOk(g, l, g.nodes, v);
    if l.pred[v] == s then v else FirstHop(g, s, l, l.pred[v])
  }

  lemma {:induction false} FirstHopReaches(g: Graph, s: nat, l: Labels, v: nat)
    requires Complete(g, s, l) && v in g.nodes && v != s
    ensures l.dist[v] > 0 && Reaches(g, FirstHop(g, s, l, v), v, l.dist[v] - 1)
    decreases l.dist[v]
  {
    assert PredOk(g, l, g.nodes, v);
    if l.pred[v] != s {
      FirstHopReaches(g, s, l, l.pred[v]);
      ReachesStep(g, FirstHop(g, s, l, v), l.pred[v], v, l.dist[v] - 2);
    }
  }

  ghost predicate Routable(g: Graph) {
    WellFormed(g) && Connected(g) && |g.nodes| <= INFINITY
  }

  /** The neighbour that u's own table names for destination d. */
  ghost function NextHop(g: Graph, u: nat, d: nat): (h: nat)
    requires Routable(g) && u in g.nodes && d in g.nodes && u != d
    ensures h in g.nodes && h != u && (u, h) in g.links
  {
    RunIsComplete(g, u);
    FirstHop(g, u, FinalLabels(g, u), d)
  }

  /** The next hop is exactly one hop nearer to the destination, measured by the topology and not by any table. */
  lemma NextHopIsCloser(g: Graph, u: nat, d: nat)
    requires Routable(g) && u in g.nodes && d in g.nodes && u != d
    ensures (u, NextHop(g, u, d)) in g.links
    ensures Dist(g, u, d) == Dist(g, NextHop(g, u, d), d) + 1
  {
    RunIsComplete(g, u);
    var l := FinalLabels(g, u);
    var h := FirstHop(g, u, l, d);
    RunComputesDist(g, u, d);
    FirstHopReaches(g, u, l, d);
    ReachesFrom(g, u, h, d, Dist(g, h, d));
  }

  /** The routers a packet for d passes when every router forwards by its own table. */
  ghost function Route(g: Graph, u: nat, d: nat): (p: seq<nat>)
    requires Routable(g) && u in g.nodes && d in g.nodes
    ensures |p| > 0 && p[0] == u
    decreases Dist(g, u, d)
  {
    if u == d then [u]
    else
      NextHopIsCloser(g, u, d);
      [u] + Route(g, NextHop(g, u, d), d)
  }

  /** Each step of p crosses a link and is one hop nearer to d, where p ends. */
  ghost predicate Descends(g: Graph, p: seq<nat>, d: nat) {
    && |p| > 0 && p[|p| - 1] == d && Connected(g) && d in g.nodes
    && (forall i :: 0 <= i < |p| - 1 ==> (p[i], p[i + 1]) in g.links)
    && (forall i :: 0 <= i < |p| ==> p[i] in g.nodes && Dist(g, p[i], d) == |p| - 1 - i)
  }

  lemma DescendsFrom(g: Graph, u: nat, p: seq<nat>, d: nat)
    requires Descends(g, p, d) && u in g.nodes && (u, p[0]) in g.links
    requires Dist(g, u, d) == Dist(g, p[0], d) + 1
    ensures Descends(g, [u] + p, d)
  {
    hide Dist;
  }

  lemma {:induction false} RouteDescends(g: Graph, u: nat, d: nat)
    requires Routable(g) && u in g.nodes && d in g.nodes
    ensures Descends(g, Route(g, u, d), d)
    decreases Dist(g, u, d)
  {
    if u == d {
      assert Reaches(g, u, d, 0);
    } else {
      NextHopIsCloser(g, u, d);
      RouteDescends(g, NextHop(g, u, d), d);
      DescendsFrom(g, u, Route(g, NextHop(g, u, d), d), d);
    }
  }

  /** Tables built independently at every router forward along links, without a loop, and deliver after
      exactly Dist hops. */
  lemma RouteIsShortest(g: Graph, u: nat, d: nat)
    requires Routable(g) && u in g.nodes && d in g.nodes
    ensures var p := Route(g, u, d);
            && p[0] == u && p[|p| - 1] == d && |p| == Dist(g, u, d) + 1
            && (forall i :: 0 <= i < |p| - 1 ==> (p[i], p[i + 1]) in g.links)
            && (forall i, j :: 0 <= i < j < |p| ==> p[i] != p[j])
  {
    hide Dist, Route;
    RouteDescends(g, u, d);
    var p := Route(g, u, d);
    forall i, j | 0 <= i < j < |p| ensures p[i] != p[j] {
      assert Dist(g, p[i], d) == |p| - 1 - i;
      assert Dist(g, p[j], d) == |p| - 1 - j;
    }
  }
}
