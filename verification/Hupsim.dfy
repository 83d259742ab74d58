/** The router emulator: link queues, routers and the construction of the routing tables on router records
    that all runs share. */
module Hupsim {
  import opened Graphs
  import opened Dijkstra
  import opened Traffic

  const QUEUE_MAX: nat := 10

  /** What becomes of a packet at a link.  A rate below 8 bits per second is kept as 0 bytes per second. */
  datatype Queuing = Accepted | Dropped | DividedByZero

  /** A packet that a link has accepted: at what time, and with how many bytes ahead of it. */
  datatype Arrival = Arrival(item: Item, time: real, ahead: nat)

  /** A link: a bounded queue towards one neighbour. */
  class NSQueue {
    ghost const owner: NSRouter  // the router that this link leaves
    const routeRef: NSRouter
    const rate: int
    const latency: real
    const max: nat
    var size: int
    var dropped: nat
    var queue: seq<Item>
    // Every packet this link ever accepted, and the times at which the first of them have left it, in order.
    ghost var accepted: seq<Arrival>
    ghost var departed: seq<real>

    /** The link emulates its rate and latency: a packet is due when the bytes ahead of it and its own have been
        sent and have travelled, and none has left before that. */
    ghost predicate Timely()
      reads this
    {
      && (forall i :: 0 <= i < |accepted| ==>
            rate != 0
            && var a := accepted[i];
               a.item.txTime
               == a.time + latency + a.item.pkt.length as real / rate as real + a.ahead as real / rate as real)
      && (forall i :: 0 <= i < |departed| && i < |accepted| ==> accepted[i].item.txTime <= departed[i])
    }

    ghost predicate Valid()
      reads this
    {
      && max > 0
      && |queue| <= max
      && size == TotalLength(Packets(queue))
      && |accepted| == |departed| + |queue|
      && (forall i :: 0 <= i < |queue| ==> accepted[|departed| + i].item == queue[i])
      && Timely()
    }

    constructor (routeRef: NSRouter, ratebps: nat, latency: real, max: nat, ghost owner: NSRouter)
      ensures Valid() && this.owner == owner && this.routeRef == routeRef
      ensures queue == [] && dropped == 0 && accepted == [] && departed == []
      ensures this.rate == ratebps / 8 && this.latency == latency
      ensures this.max == if max == 0 then 10 else max
    {
      this.owner, this.routeRef := owner, routeRef;
      this.rate := ratebps / 8;
      this.latency := latency;
      this.max := if max == 0 then QUEUE_MAX else max;
      size, dropped, queue := 0, 0, [];
      accepted, departed := [], [];
    }

    /** When a packet is due that comes at this time behind so many bytes. */
    ghost function DueAt(time: real, length: nat, ahead: nat): real
      requires rate != 0
    {
      time + latency + length as real / rate as real + ahead as real / rate as real
    }

    /** Accepts at the tail, or counts a drop when the queue is full; with rate 0 the division fails instead. */
    method EnQ(pkt: Packet, vtime: real) returns (r: Queuing)
      requires Valid()
      modifies this`queue, this`size, this`dropped, this`accepted
      ensures Valid()
      ensures r == Dropped <==> |old(queue)| >= max
      ensures r == DividedByZero <==> |old(queue)| < max && rate == 0
      ensures dropped == old(dropped) + if r == Dropped then 1 else 0
      ensures r != Accepted ==> queue == old(queue) && accepted == old(accepted)
      ensures r == Accepted ==>
                var ahead := TotalLength(Packets(old(queue)));
                var item := Item(pkt, vtime + latency + pkt.length as real / rate as real
                                      + ahead as real / rate as real);
                queue == old(queue) + [item] && accepted == old(accepted) + [Arrival(item, vtime, ahead)]
      ensures r == Accepted ==> Packets(queue) == Packets(old(queue)) + [pkt]
    {
      hide Packets, TotalLength;
      PacketsNone();
      if |queue| >= max {
        dropped := dropped + 1;
        return Dropped;
      }
      if rate == 0 { return DividedByZero; }
      ghost var ahead := TotalLength(Packets(queue));
      var txTime := latency + pkt.length as real / rate as real + vtime;
      if |queue| > 0 {
        txTime := txTime + size as real / rate as real;
      }
      TotalLengthAppend(Packets(queue), pkt);
      PacketsAppend(queue, Item(pkt, txTime));
      queue := queue + [Item(pkt, txTime)];
      size := size + pkt.length;
      accepted := accepted + [Arrival(Item(pkt, txTime), vtime, ahead)];
      r := Accepted;
    }

    /** Takes the head, which is due, off the queue. */
    method DeQ(ghost time: real) returns (pkt: Packet)
      requires Valid() && queue != [] && queue[0].txTime <= time
      modifies this`queue, this`size, this`departed
      ensures Valid()
      ensures pkt == old(queue)[0].pkt && queue == old(queue)[1..]
      ensures Packets(queue) == Packets(old(queue))[1..]
      ensures departed == old(departed) + [time]
    {
      hide Packets, TotalLength;
      pkt := queue[0].pkt;
      PacketsTail(queue);
      queue := queue[1..];
      size := size - pkt.length;
      departed := departed + [time];
    }

    /** First in, first out: the packets that have left are the first ones accepted, and the rest is queued. */
    lemma Fifo()
      requires Valid()
      ensures |departed| <= |accepted| && |accepted| - |departed| == |queue|
      ensures forall i :: |departed| <= i < |accepted| ==> queue[i - |departed|] == accepted[i].item
    {
    }

    /** No packet is faster than the link: from its arrival on it takes at least the latency and the time for the
        bytes that were ahead of it and its own. */
    lemma NeverEarly(i: nat)
      requires Valid() && i < |departed|
      ensures rate != 0
      ensures var a := accepted[i];
              departed[i] - a.time >= latency + (a.ahead + a.item.pkt.length) as real / rate as real
    {
      var x, y, r := accepted[i].item.pkt.length as real, accepted[i].ahead as real, rate as real;
      assert (x + y) / r == x / r + y / r;
    }
  }

  /** Which neighbours each router has a queue for.  Sparse arrays are maps from the defined indices. */
  ghost function Neighbours(vs: map<nat, NSRouter>): map<nat, set<nat>>
    reads vs.Values`routes
  {
    map i | i in vs :: vs[i].routes.Keys
  }

  lemma AllNeighbours(vs: map<nat, NSRouter>)
    ensures Neighbours(vs).Keys == vs.Keys && forall i :: i in vs ==> Neighbours(vs)[i] == vs[i].routes.Keys
  {
  }

  lemma NeighboursWith(vs: map<nat, NSRouter>, id: nat, r: NSRouter)
    requires id !in vs && r.routes == map[]
    ensures Neighbours(vs[id := r]) == Neighbours(vs)[id := {}] && id !in Neighbours(vs)
  {
    assert r.routes.Keys == {};
  }

  lemma HasNeighbours(vs: map<nat, NSRouter>, id: nat)
    requires id in vs
    ensures id in Neighbours(vs)
  {
  }

  /** Routers sit at their identifier, the entry for j leads to router j, and g is the resulting graph. */
  ghost predicate Shows(vs: map<nat, NSRouter>, g: Graph)
    reads vs.Values`routes
  {
    && WellFormed(g) && g.nodes == vs.Keys
    && (forall i :: i in vs ==> vs[i].id == i)
    && (forall i, j :: i in vs && j in vs[i].routes ==> j in vs && vs[i].routes[j].routeRef == vs[j])
    && (forall i, j :: (i, j) in g.links <==> i in vs && j in vs[i].routes)
  }

  /** The shared records show the labels of the current run; predecessors that the run has not set may hold
      anything. */
  ghost predicate Matches(vs: map<nat, NSRouter>, l: Labels)
    reads vs.Values`distance, vs.Values`done, vs.Values`predecessor
  {
    && (forall v {:trigger v in l.dist} {:trigger l.dist[v]} ::
          v in l.dist ==> v in vs && vs[v].distance == l.dist[v] && (vs[v].done > 0 <==> v in l.done))
    && (forall v {:trigger v in l.pred} {:trigger l.pred[v]} ::
          v in l.pred ==> v in vs && l.pred[v] in vs && vs[v].predecessor == vs[l.pred[v]])
  }

  method SetBaseState(vs: map<nat, NSRouter>, n: nat, ghost g: Graph, s: nat)
    requires Shows(vs, g) && g.n == n
    modifies vs.Values`distance, vs.Values`done
    ensures Shows(vs, g)
    ensures Matches(vs, Start(g, s))
  {
    for i := 0 to n
      invariant forall j :: 0 <= j < i && j in vs ==>
                  vs[j].done == 0 && vs[j].distance == if j == s then 0 else INFINITY
    {
      if i in vs {
        vs[i].done := 0;
        vs[i].distance := if vs[i].id == s then 0 else INFINITY;
      }
    }
  }

  ghost function NodesBelow(g: Graph, i: nat): set<nat> {
    set j | j in g.nodes && j < i
  }

  /** The first unvisited router with the least distance. */
  method PickNext(vs: map<nat, NSRouter>, n: nat, ghost g: Graph, ghost l: Labels) returns (next: NSRouter?)
    requires Shows(vs, g) && g.n == n && Total(g, l) && Matches(vs, l)
    ensures var u := Pick(g, l, n);
            if u == n then next == null else u in vs && next == vs[u] && next.id == u
  {
    next := null;
    var min := INFINITY + 1;
    for i := 0 to n
      invariant var u := Pick(g, l, i);
                min == PickBound(g, l, u) && if u == n then next == null else u in vs && next == vs[u]
    {
      if i in vs {
        if vs[i].done == 0 && vs[i].distance < min {
          next := vs[i];
          min := vs[i].distance;
        }
      }
    }
  }

  lemma Identifiers(vs: map<nat, NSRouter>, g: Graph)
    requires Shows(vs, g)
    ensures forall i :: i in vs ==> vs[i].id == i
  {
  }

  method SetLabel(vs: map<nat, NSRouter>, ghost g: Graph, ghost l: Labels, v: NSRouter, distance: nat, pred: NSRouter)
    requires Shows(vs, g) && Matches(vs, l)
    requires v.id in l.dist && v.id in vs && vs[v.id] == v && pred.id in vs && vs[pred.id] == pred
    modifies v`distance, v`predecessor
    ensures Shows(vs, g)
    ensures Matches(vs, l.(dist := l.dist[v.id := distance], pred := l.pred[v.id := pred.id]))
  {
    hide Shows;
    Identifiers(vs, g);
    v.distance := distance;
    v.predecessor := pred;
  }

  lemma RouteFacts(vs: map<nat, NSRouter>, g: Graph, l: Labels, next: NSRouter, edge: NSQueue, j: nat)
    requires Shows(vs, g) && Total(g, l) && Matches(vs, l)
    requires next.id in vs && vs[next.id] == next && j in next.routes && next.routes[j] == edge
    ensures (next.id, j) in g.links && j in vs && edge.routeRef == vs[j] && vs[j].id == j
            && j in l.dist && next.id in l.dist
    ensures l.dist[j] == vs[j].distance && l.dist[next.id] == next.distance
  {
    hide WellFormed;
    assert (next.id, j) in g.links;
  }

  method RelaxRoute(vs: map<nat, NSRouter>, ghost g: Graph, ghost l: Labels,
                    next: NSRouter, edge: NSQueue, ghost j: nat)
    requires Shows(vs, g) && Total(g, l) && Matches(vs, l)
    requires next.id in vs && next.id in g.nodes && vs[next.id] == next && j in next.routes && next.routes[j] == edge
    modifies vs.Values`distance, vs.Values`predecessor
    ensures Shows(vs, g)
    ensures Matches(vs, Relax(g, l, next.id, j))
  {
    hide Shows, Matches, WellFormed;
    RouteFacts(vs, g, l, next, edge, j);
    var weight := next.distance + 1;
    if edge.routeRef.distance > weight {
      SetLabel(vs, g, l, edge.routeRef, weight, next);
    }
  }

  lemma NoRouteNoChange(vs: map<nat, NSRouter>, g: Graph, l: Labels, next: NSRouter, j: nat)
    requires Shows(vs, g) && Total(g, l) && next.id in vs && vs[next.id] == next && j !in next.routes
    ensures Relax(g, l, next.id, j) == l
  {
  }

  method RelaxRoutes(vs: map<nat, NSRouter>, n: nat, ghost g: Graph, ghost l: Labels, next: NSRouter)
    requires Shows(vs, g) && g.n == n && Total(g, l) && Matches(vs, l)
    requires next.id in vs && next.id in g.nodes && vs[next.id] == next
    modifies vs.Values`distance, vs.Values`predecessor
    ensures Shows(vs, g)
    ensures Matches(vs, RelaxTo(g, l, next.id, n))
  {
    hide Relax, WellFormed, Matches, Shows;
    ghost var u := next.id;
    for j := 0 to n
      invariant Shows(vs, g) && Matches(vs, RelaxTo(g, l, u, j))
    {
      if j in next.routes {
        RelaxRoute(vs, g, RelaxTo(g, l, u, j), next, next.routes[j], j);
      } else {
        NoRouteNoChange(vs, g, RelaxTo(g, l, u, j), next, j);
      }
    }
  }

  method MarkDone(vs: map<nat, NSRouter>, ghost g: Graph, ghost l: Labels, next: NSRouter)
    requires Shows(vs, g) && Matches(vs, l) && next.id in vs && vs[next.id] == next
    modifies next`done
    ensures Shows(vs, g) && Matches(vs, l.(done := l.done + {next.id}))
  {
    hide Shows;
    Identifiers(vs, g);
    next.done := next.done + 1;
  }

  method VisitNext(vs: map<nat, NSRouter>, n: nat, ghost g: Graph, ghost l: Labels)
    requires Shows(vs, g) && g.n == n && Total(g, l) && Matches(vs, l) && Pick(g, l, n) != n
    modifies vs.Values`distance, vs.Values`done, vs.Values`predecessor
    ensures Shows(vs, g)
    ensures Matches(vs, Visit(g, l))
  {
    hide RelaxTo, Pick, WellFormed, Shows, Matches;
    var next := PickNext(vs, n, g, l);
    RelaxRoutes(vs, n, g, l, next);
    MarkDone(vs, g, RelaxTo(g, l, next.id, n), next);
  }

  lemma AllNodesBelow(g: Graph)
    requires WellFormed(g)
    ensures NodesBelow(g, 0) == {} && NodesBelow(g, g.n) == g.nodes
  {
  }

  lemma NodesBelowStep(g: Graph, i: nat)
    ensures |NodesBelow(g, i + 1)| == |NodesBelow(g, i)| + if i in g.nodes then 1 else 0
    ensures |NodesBelow(g, i + 1)| <= |g.nodes|
  {
    assert NodesBelow(g, i + 1) == NodesBelow(g, i) + if i in g.nodes then {i} else {};
    SubsetSize(NodesBelow(g, i + 1), g.nodes);
  }

  lemma PickExists(g: Graph, s: nat, c: nat)
    requires WellFormed(g) && s in g.nodes && c < |g.nodes|
    ensures Pick(g, Visits(g, s, c), g.n) != g.n
  {
    hide Visits;
    VisitsSound(g, s, c);
    var l := Visits(g, s, c);
    PickIsLeast(g, l, g.n);
    if g.nodes <= l.done { SubsetSize(g.nodes, l.done); }
    var x :| x in g.nodes - l.done;
  }

  method VisitAll(vs: map<nat, NSRouter>, n: nat, ghost g: Graph, s: nat)
    requires Shows(vs, g) && WellFormed(g) && g.nodes == vs.Keys && g.n == n && s in g.nodes
    requires Matches(vs, Start(g, s))
    modifies vs.Values`distance, vs.Values`done, vs.Values`predecessor
    ensures Shows(vs, g)
    ensures Matches(vs, FinalLabels(g, s))
  {
    hide Visit, Start, Matches, NodesBelow, WellFormed, Shows;
    ghost var c := 0;
    AllNodesBelow(g);
    for i := 0 to n
      invariant c == |NodesBelow(g, i)|
      invariant Shows(vs, g) && Matches(vs, Visits(g, s, c))
    {
      NodesBelowStep(g, i);
      if i in vs {
        PickExists(g, s, c);
        VisitNext(vs, n, g, Visits(g, s, c));
        c := c + 1;
      }
    }
  }

  lemma NextHopIsFirstHop(g: Graph, u: nat, d: nat)
    requires Routable(g) && u in g.nodes && d in g.nodes && u != d
    ensures Complete(g, u, FinalLabels(g, u)) && FirstHop(g, u, FinalLabels(g, u), d) == NextHop(g, u, d)
  {
    RunIsComplete(g, u);
  }

  lemma LabelsAreDistances(vs: map<nat, NSRouter>, g: Graph, s: nat)
    requires Routable(g) && s in g.nodes && Matches(vs, FinalLabels(g, s))
    ensures forall v :: v in g.nodes ==> v in vs && vs[v].distance == Dist(g, s, v)
  {
    forall v | v in g.nodes ensures v in vs && vs[v].distance == Dist(g, s, v) {
      RunComputesDist(g, s, v);
    }
  }

  /** Follows predecessors until one link from the source is left. */
  method WalkBack(vs: map<nat, NSRouter>, ghost g: Graph, ghost l: Labels, s: nat, v: nat) returns (start: NSRouter)
    requires Shows(vs, g) && Complete(g, s, l) && Matches(vs, l)
    requires v in vs && v != s
    ensures start == vs[FirstHop(g, s, l, v)] && start.id == FirstHop(g, s, l, v)
  {
    start := vs[v];
    assert PredOk(g, l, g.nodes, v);
    while start.predecessor.id != s
      invariant start.id in vs && start.id != s && vs[start.id] == start
      invariant PredOk(g, l, g.nodes, start.id)
      invariant FirstHop(g, s, l, start.id) == FirstHop(g, s, l, v)
      decreases l.dist[start.id]
    {
      start := start.predecessor;
      assert PredOk(g, l, g.nodes, start.id);
    }
  }

  lemma NodesAre(vs: map<nat, NSRouter>, g: Graph)
    requires Shows(vs, g)
    ensures g.nodes == vs.Keys && forall i :: i in vs ==> vs[i].id == i
    ensures WellFormed(g)
  {
  }

  /** The list of routers that may have something to send. */
  class RunList {
    var items: seq<NSRouter>
    constructor () ensures items == [] { items := []; }
  }

  /** A clock may show anything at each reading. */
  class Clock {
    const at: nat -> real
    var ticks: nat

    constructor (at: nat -> real) { this.at := at; ticks := 0; }

    /** The reading after t earlier ones. */
    function Shown(t: nat): real {
      at(t)
    }

    method Now() returns (t: real)
      modifies this`ticks
      ensures t == Shown(old(ticks)) && ticks == old(ticks) + 1
    {
      t := at(ticks);
      ticks := ticks + 1;
    }
  }

  // ---------- which links are left with packets that are due ----------

  /** The k-th queue without its head. */
  function Headless<T>(qs: seq<seq<T>>, k: nat): seq<seq<T>> {
    if k < |qs| && qs[k] != [] then qs[k := qs[k][1..]] else qs
  }

  /** Only links of routers that have joined the work list since then have other packets. */
  ghost predicate OnlyFrom(owners: seq<NSRouter>, was: seq<seq<Item>>, now: seq<seq<Item>>,
                           before: seq<NSRouter>, after: seq<NSRouter>) {
    && |owners| == |was| == |now| && before <= after
    && forall k :: 0 <= k < |was| ==> now[k] == was[k] || owners[k] in after[|before|..]
  }

  lemma OnlyFromHop(owners: seq<NSRouter>, a: seq<seq<Item>>, b: seq<seq<Item>>, c: seq<seq<Item>>, x: nat,
                    i: seq<NSRouter>, j: seq<NSRouter>, k: seq<NSRouter>)
    requires |a| == |b| == |c| && x < |a| && b[x] != []
    requires OnlyFrom(owners, a[x := b[x]], b, i, j) && OnlyFrom(owners, Headless(b, x), c, j, k)
    ensures OnlyFrom(owners, a[x := c[x]], c, i, k)
  {
    assert k[|i|..] == k[|i|..|j|] + k[|j|..] && k[|i|..|j|] == j[|i|..];
    var d, e := a[x := b[x]], b[x := b[x][1..]];
    assert forall y :: 0 <= y < |a| && y != x ==> d[y] == a[y] && e[y] == b[y];
  }

  /** How long to sleep: for ever while nothing waits. */
  datatype Sleep = Forever | Seconds(t: real)

  function Sooner(a: Sleep, b: Sleep): Sleep {
    if a.Seconds? && (b.Seconds? ==> a.t <= b.t) then a else b
  }

  /** Nothing on the link was due at one of the readings from t0 up to t1, and the sleep does not outlast what was
      left of the head's time at that reading. */
  ghost predicate Rests(q: seq<Item>, clock: Clock, t0: nat, t1: nat, s: Sleep) {
    q == [] || (s.Seconds? && exists t :: t0 <= t < t1 && clock.Shown(t) < q[0].txTime
                                          && s.t <= q[0].txTime - clock.Shown(t))
  }

  predicate Positive(s: Sleep) {
    s.Seconds? ==> s.t > 0.0
  }

  predicate NoLater(w: Sleep, s: Sleep) {
    s.Seconds? ==> w.Seconds? && w.t <= s.t
  }

  lemma RestsOn(q: seq<Item>, clock: Clock, t0: nat, t1: nat, s: Sleep, u0: nat, u1: nat, w: Sleep)
    requires Rests(q, clock, t0, t1, s) && u0 <= t0 && t1 <= u1 && NoLater(w, s)
    ensures Rests(q, clock, u0, u1, w)
  {
  }

  /** The links of r to routers below j are at rest and s is exactly how long, or r has joined the work list. */
  ghost predicate Served(owners: seq<NSRouter>, heads: seq<nat>, q: seq<seq<Item>>, r: NSRouter, j: nat,
                         clock: Clock, t0: nat, t1: nat, s: Sleep, before: seq<NSRouter>, after: seq<NSRouter>) {
    && |owners| == |heads| == |q| && before <= after && Positive(s)
    && (r in after[|before|..]
        || ((forall k :: 0 <= k < |q| && owners[k] == r && heads[k] < j ==> Rests(q[k], clock, t0, t1, s))
            && (s.Seconds? ==> exists k, t ::
                  && 0 <= k < |q| && owners[k] == r && heads[k] < j && q[k] != []
                  && t0 <= t < t1 && s.t == q[k][0].txTime - clock.Shown(t))))
  }

  lemma ServedStart(owners: seq<NSRouter>, heads: seq<nat>, q: seq<seq<Item>>, r: NSRouter, clock: Clock, t: nat,
                    items: seq<NSRouter>)
    requires |owners| == |heads| == |q|
    ensures Served(owners, heads, q, r, 0, clock, t, t, Forever, items, items)
  {
  }

  lemma ServedSkip(owners: seq<NSRouter>, heads: seq<nat>, q: seq<seq<Item>>, r: NSRouter, j: nat,
                   clock: Clock, t0: nat, t1: nat, s: Sleep, before: seq<NSRouter>, after: seq<NSRouter>)
    requires Served(owners, heads, q, r, j, clock, t0, t1, s, before, after)
    requires forall k :: 0 <= k < |q| && owners[k] == r ==> heads[k] != j
    ensures Served(owners, heads, q, r, j + 1, clock, t0, t1, s, before, after)
  {
    hide Rests;
  }

  lemma RestsNow(q: seq<Item>, clock: Clock, t0: nat, t: nat, t1: nat, s: Sleep)
    requires t0 <= t < t1
    requires q == [] || (clock.Shown(t) < q[0].txTime && NoLater(s, Seconds(q[0].txTime - clock.Shown(t))))
    ensures Rests(q, clock, t0, t1, s)
  {
  }

  lemma ServedStep(owners: seq<NSRouter>, heads: seq<nat>, b: seq<seq<Item>>, c: seq<seq<Item>>, r: NSRouter, j: nat,
                   x: nat, clock: Clock, t0: nat, t1: nat, t: nat, t2: nat, s: Sleep,
                   before: seq<NSRouter>, mid: seq<NSRouter>, after: seq<NSRouter>)
    requires Served(owners, heads, b, r, j, clock, t0, t1, s, before, mid) && t0 <= t1 <= t < t2
    requires x < |b| == |c| && owners[x] == r && OnlyFrom(owners, b[x := c[x]], c, mid, after)
    requires forall k :: 0 <= k < |b| && owners[k] == r ==> (heads[k] == j <==> k == x)
    requires c[x] == [] || clock.Shown(t) < c[x][0].txTime
    ensures Served(owners, heads, c, r, j + 1, clock, t0, t2,
                   if c[x] == [] then s else Sooner(s, Seconds(c[x][0].txTime - clock.Shown(t))), before, after)
  {
    hide Rests;
    assert after[|before|..] == mid[|before|..] + after[|mid|..] by {
      assert after[|before|..] == after[|before|..|mid|] + after[|mid|..] && after[|before|..|mid|] == mid[|before|..];
    }
    var w := if c[x] == [] then s else Sooner(s, Seconds(c[x][0].txTime - clock.Shown(t)));
    if r !in after[|before|..] {
      forall k | 0 <= k < |c| && owners[k] == r && heads[k] < j + 1 ensures Rests(c[k], clock, t0, t2, w) {
        if k == x {
          RestsNow(c[x], clock, t0, t, t2, w);
        } else {
          assert c[k] == b[x := c[x]][k] == b[k];
          RestsOn(b[k], clock, t0, t1, s, t0, t2, w);
        }
      }
      if w.Seconds? && w == s {
        var k, u :| 0 <= k < |b| && owners[k] == r && heads[k] < j && b[k] != [] && t0 <= u < t1
                    && s.t == b[k][0].txTime - clock.Shown(u);
        assert c[k] == b[x := c[x]][k] == b[k];
      }
    }
  }

  /** Among the links of other routers, only those of routers that have joined the list have other packets. */
  ghost predicate OthersKept(owners: seq<NSRouter>, was: seq<seq<Item>>, now: seq<seq<Item>>, r: NSRouter,
                             before: seq<NSRouter>, after: seq<NSRouter>) {
    && |owners| == |was| == |now| && before <= after
    && forall k :: 0 <= k < |was| && owners[k] != r ==> now[k] == was[k] || owners[k] in after[|before|..]
  }

  lemma OthersStart(owners: seq<NSRouter>, q: seq<seq<Item>>, r: NSRouter, items: seq<NSRouter>)
    requires |owners| == |q|
    ensures OthersKept(owners, q, q, r, items, items)
  {
  }

  lemma OthersStep(owners: seq<NSRouter>, a: seq<seq<Item>>, b: seq<seq<Item>>, c: seq<seq<Item>>, r: NSRouter, x: nat,
                   before: seq<NSRouter>, mid: seq<NSRouter>, after: seq<NSRouter>)
    requires x < |b| == |c| && OthersKept(owners, a, b, r, before, mid) && owners[x] == r
    requires OnlyFrom(owners, b[x := c[x]], c, mid, after)
    ensures OthersKept(owners, a, c, r, before, after)
  {
    assert after[|before|..] == after[|before|..|mid|] + after[|mid|..] && after[|before|..|mid|] == mid[|before|..];
    assert forall k :: 0 <= k < |b| && k != x ==> b[x := c[x]][k] == b[k];
  }

  /** Every link is at rest, or its router is still on the list. */
  ghost predicate Settled(owners: seq<NSRouter>, q: seq<seq<Item>>, clock: Clock, t0: nat, t1: nat, s: Sleep,
                          items: seq<NSRouter>) {
    && |owners| == |q| && Positive(s)
    && forall k :: 0 <= k < |q| ==> Rests(q[k], clock, t0, t1, s) || owners[k] in items
  }

  lemma SoonerIsBoth(a: Sleep, b: Sleep)
    ensures Positive(a) && Positive(b) ==> Positive(Sooner(a, b))
    ensures NoLater(Sooner(a, b), a) && NoLater(Sooner(a, b), b)
  {
  }

  lemma SettledStep(owners: seq<NSRouter>, heads: seq<nat>, a: seq<seq<Item>>, b: seq<seq<Item>>, r: NSRouter, n: nat,
                    clock: Clock, t0: nat, t1: nat, t2: nat, s: Sleep, w: Sleep,
                    rest: seq<NSRouter>, items: seq<NSRouter>)
    requires Settled(owners, a, clock, t0, t1, s, [r] + rest) && OthersKept(owners, a, b, r, rest, items)
    requires Served(owners, heads, b, r, n, clock, t1, t2, w, rest, items) && t0 <= t1 <= t2
    requires forall k :: 0 <= k < |heads| ==> heads[k] < n
    ensures Settled(owners, b, clock, t0, t2, Sooner(s, w), items)
  {
    hide Rests, Sooner;
    SoonerIsBoth(s, w);
    assert items == rest + items[|rest|..];
    forall k | 0 <= k < |b| && owners[k] !in items ensures Rests(b[k], clock, t0, t2, Sooner(s, w)) {
      if owners[k] == r {
        RestsOn(b[k], clock, t1, t2, w, t0, t2, Sooner(s, w));
      } else {
        RestsOn(a[k], clock, t0, t1, s, t0, t2, Sooner(s, w));
      }
    }
  }

  class NSRouter {
    const id: nat
    const nodes: map<(nat, nat), nat>
    var routes: map<nat, NSQueue>
    var routingTable: map<nat, NSQueue>
    var bytesSent: int
    var distance: nat
    var done: nat
    var predecessor: NSRouter?

    constructor (id: nat, nodes: map<(nat, nat), nat>)
      ensures this.id == id && this.nodes == nodes && routes == map[] && routingTable == map[] && bytesSent == 0
    {
      this.id, this.nodes := id, nodes;
      routes, routingTable, bytesSent := map[], map[], 0;
    }

    method AddRoute(routeRef: NSRouter, rate: nat, latency: real, max: nat)
      modifies this`routes
      ensures routeRef.id in routes
      ensures var q := routes[routeRef.id];
              fresh(q) && q.owner == this && q.routeRef == routeRef && q.Valid() && q.queue == [] && q.dropped == 0
              && q.rate == rate / 8 && q.latency == latency && q.max == (if max == 0 then 10 else max)
              && routes == old(routes)[routeRef.id := q]
    {
      var q := new NSQueue(routeRef, rate, latency, max, this);
      routes := routes[routeRef.id := q];
    }

    /** Passes a packet on by the table entry for router d, on link k. */
    method Forward(net: Network, d: nat, pkt: Packet, vtime: real, runRouters: RunList)
      returns (died: bool, ghost k: nat)
      requires net.Static() && net.Flowing() && net.Has(this) && net.AllOurs(runRouters.items)
      requires DestOf(nodes, pkt) == Node(d) && d in routingTable
      modifies runRouters`items, net.links, net`lost
      ensures net.Flowing() && net.AllOurs(runRouters.items) && Known(net.g, nodes, pkt) && d != id
      ensures k < |net.links| && net.links[k] == routingTable[d]
      ensures died <==> net.links[k].rate == 0 && |old(net.links[k].queue)| < net.links[k].max
      ensures runRouters.items == old(runRouters.items) + if died then [] else [this]
      ensures if died then net.Still() else net.PutOn(old(net.Contents()), old(net.Drops()), old(net.lost), k, pkt)
      ensures !died ==>
                && net.Everything() == old(net.Everything()) + multiset{pkt}
                && net.Work() <= old(net.Work()) + HopsLeft(net.g, nodes, id, pkt)
      ensures |net.links| == |old(net.Queues())| && net.Queues() == net.Joined(old(net.Queues()), k, pkt, vtime)
      ensures OnlyFrom(net.Owners(), old(net.Queues()), net.Queues(), old(runRouters.items), runRouters.items)
    {
      hide net.Static, net.Flowing, net.Everything, net.Work, net.PutOn, net.Queues, net.Owners, net.Contents,
           net.Drops, net.Distinct, net.Joined;
      hide HopsLeft, Known, OnlyFrom, DestOf;
      ghost var was := net.Queues();
      net.NothingMoved(runRouters.items);
      k := net.LinkOf(this, pkt, d);
      died := net.Enqueue(k, routingTable[d], pkt, vtime);
      net.LengthsAt(k);
      if died {
        net.NoneJoined(was, k, pkt, vtime);
      } else {
        runRouters.items := runRouters.items + [this];
        net.OneMoved(was, k, pkt, vtime, old(runRouters.items), this);
      }
    }

    /** A packet arrives: it is delivered here, passed on by this router's own table, ignored when no node has
        its address, or fatal when its node is no router or its link is too slow.  k is the link it is passed to. */
    method Recv(net: Network, pkt: Packet, vtime: real, runRouters: RunList) returns (died: bool, ghost k: nat)
      requires net.Static() && net.Flowing() && net.Has(this) && net.AllOurs(runRouters.items)
      modifies this`bytesSent, runRouters`items, net.links, net`delivered, net`lost
      ensures net.Flowing() && net.AllOurs(runRouters.items)
      ensures !Known(net.g, nodes, pkt) ==>
                && (died <==> DestOf(nodes, pkt).Node? && DestOf(nodes, pkt).id != id)
                && net.Still() && runRouters.items == old(runRouters.items) && bytesSent == old(bytesSent)
      ensures Known(net.g, nodes, pkt) ==>
                if DestOf(nodes, pkt).id == id then
                  !died && runRouters.items == old(runRouters.items) && bytesSent == old(bytesSent) + pkt.length - 16
                else
                  && k < |net.links| == |old(net.Queues())|
                  && (died <==> net.links[k].rate == 0 && |old(net.links[k].queue)| < net.links[k].max)
                  && DestOf(nodes, pkt).id in routingTable && net.links[k] == routingTable[DestOf(nodes, pkt).id]
                  && runRouters.items == old(runRouters.items) + (if died then [] else [this])
                  && bytesSent == old(bytesSent)
      ensures Known(net.g, nodes, pkt) ==>
                if died then net.Still()
                else net.Passed(old(net.Contents()), old(net.Drops()), old(net.lost), old(net.delivered), this, k, pkt)
      ensures net.Queues()
           == if !Known(net.g, nodes, pkt) || DestOf(nodes, pkt).id == id then old(net.Queues())
              else net.Joined(old(net.Queues()), k, pkt, vtime)
      ensures !died ==>
                if Known(net.g, nodes, pkt) then
                  net.Everything() == old(net.Everything()) + multiset{pkt}
                  && net.Work() <= old(net.Work()) + HopsLeft(net.g, nodes, id, pkt)
                else net.Everything() == old(net.Everything()) && net.Work() == old(net.Work())
      ensures OnlyFrom(net.Owners(), old(net.Queues()), net.Queues(), old(runRouters.items), runRouters.items)
    {
      hide net.Static, net.Flowing, net.Everything, net.Work, net.PutOn, net.Conserved, net.Queues, net.Owners,
           net.Contents, net.Drops;
      hide NextHop, HopsLeft, Known, OnlyFrom, net.AllOurs, net.Joined, TotalLength, Packets;
      died, k := false, 0;
      var dest := DestOf(nodes, pkt);
      net.KnownHere(this, pkt);
      net.NothingMoved(runRouters.items);
      if dest == Nowhere { return; }
      if dest.id == id {
        net.Deliver(this, pkt);
        bytesSent := bytesSent + pkt.length - 16;
      } else if dest.id in routingTable {
        died, k := Forward(net, dest.id, pkt, vtime, runRouters);
      } else {
        net.NoTableEntry(this, pkt, dest.id);
        died := true;
      }
    }

    /** The head packet of one of this router's links crosses the link: it is delivered, or goes on to link m, the
        next one by the table of the router that it reaches.  k is the link that it crosses. */
    method Hop(net: Network, route: NSQueue, clock: Clock, runRouters: RunList, ghost t: nat)
      returns (died: bool, now: real, ghost k: nat, ghost m: nat)
      requires net.Static() && net.Flowing() && route in net.links && route.queue != []
      requires t < clock.ticks && route.queue[0].txTime <= clock.Shown(t)
      requires net.AllOurs(runRouters.items)
      modifies net.routers.Values`bytesSent, runRouters`items, net.links, net`delivered, net`lost, clock`ticks
      ensures net.Flowing() && net.AllOurs(runRouters.items)
      ensures k < |net.links| && net.links[k] == route
      ensures DestOf(net.nodes, old(route.queue[0].pkt)) != Node(route.routeRef.id) ==>
                m < |net.links| == |Headless(old(net.Queues()), k)|
      ensures now == clock.Shown(old(clock.ticks)) && clock.ticks == old(clock.ticks) + 1
      ensures died ==> net.TooSlow()
      ensures !died ==> net.Everything() == old(net.Everything()) && net.Work() < old(net.Work())
      ensures !died ==>
                net.Passed(Headless(old(net.Contents()), k), old(net.Drops()), old(net.lost), old(net.delivered),
                           route.routeRef, m, old(route.queue[0].pkt))
      ensures var pkt, was := old(route.queue[0].pkt), Headless(old(net.Queues()), k);
              net.Queues() == if DestOf(net.nodes, pkt) == Node(route.routeRef.id) then was
                              else net.Joined(was, m, pkt, now)
      ensures OnlyFrom(net.Owners(), Headless(old(net.Queues()), k), net.Queues(),
                       old(runRouters.items), runRouters.items)
    {
      hide net.Static, net.Flowing, net.Everything, net.Work, net.Has, net.AllOurs, net.Contents, net.Drops,
           net.Distinct, net.Queues, net.Owners, net.Passed, net.TooSlow, net.Still, clock.Shown, HopsLeft, Known,
           Packets, TotalLength, DestOf, OnlyFrom, Headless, net.Joined;
      k := net.IndexOf(route);
      net.LengthsAt(k);
      var pkt := net.Dequeue(k, route, clock.Shown(t));
      now := clock.Now();
      died, m := net.Enter(route.routeRef, pkt, now, runRouters);
    }

    /** Sends the head of the k-th link; what moved since a is known. */
    method SendHead(net: Network, route: NSQueue, clock: Clock, runRouters: RunList, ghost k: nat,
                    ghost a: seq<seq<Item>>, ghost i: seq<NSRouter>, ghost t: nat)
      returns (died: bool, now: real)
      requires net.Static() && net.Flowing() && k < |net.links| && net.links[k] == route && route.queue != []
      requires net.AllOurs(runRouters.items) && |a| == |net.links|
      requires t < clock.ticks && route.queue[0].txTime <= clock.Shown(t)
      requires OnlyFrom(net.Owners(), a[k := route.queue], net.Queues(), i, runRouters.items)
      modifies net.routers.Values`bytesSent, runRouters`items, net.links, net`delivered, net`lost, clock`ticks
      ensures net.Flowing() && net.AllOurs(runRouters.items) && (died ==> net.TooSlow())
      ensures !died ==> net.Everything() == old(net.Everything()) && net.Work() < old(net.Work())
      ensures now == clock.Shown(old(clock.ticks)) && clock.ticks == old(clock.ticks) + 1
      ensures OnlyFrom(net.Owners(), a[k := route.queue], net.Queues(), i, runRouters.items)
    {
      hide net.Static, net.Flowing, net.Everything, net.Work, net.Queues, net.Owners, net.Contents, net.Drops,
           net.Passed, net.Has, net.AllOurs, net.Distinct, net.TooSlow, OnlyFrom, Headless;
      net.LengthsAt(k);
      ghost var b, j := net.Queues(), runRouters.items;
      ghost var k', m;
      died, now, k', m := Hop(net, route, clock, runRouters, t);
      net.SameIndex(k, k');
      net.LengthsAt(k);
      OnlyFromHop(net.Owners(), a, b, net.Queues(), k, i, j, runRouters.items);
    }

    /** Sends what is due on the k-th link; t is the last reading of the clock. */
    method SendDue(net: Network, route: NSQueue, clock: Clock, runRouters: RunList, time: real, ghost k: nat,
                   ghost a: seq<seq<Item>>, ghost i: seq<NSRouter>) returns (died: bool, now: real, ghost t: nat)
      requires net.Static() && net.Flowing() && k < |net.links| && net.links[k] == route
      requires net.AllOurs(runRouters.items) && |a| == |net.links|
      requires OnlyFrom(net.Owners(), a[k := route.queue], net.Queues(), i, runRouters.items)
      requires clock.ticks > 0 && time == clock.Shown(clock.ticks - 1)
      modifies net.routers.Values`bytesSent, runRouters`items, net.links, net`delivered, net`lost, clock`ticks
      ensures net.Flowing() && net.AllOurs(runRouters.items) && (died ==> net.TooSlow())
      ensures !died ==>
                && net.Everything() == old(net.Everything())
                && (net.Work() < old(net.Work())
                    || (net.Work() == old(net.Work()) && runRouters.items == old(runRouters.items)))
                && old(clock.ticks) <= t + 1 <= clock.ticks && now == clock.Shown(t)
                && (route.queue == [] || route.queue[0].txTime > now)
      ensures OnlyFrom(net.Owners(), a[k := route.queue], net.Queues(), i, runRouters.items)
    {
      hide net.Static, net.Flowing, net.Everything, net.Work, net.Queues, net.Owners, net.Contents, net.Has,
           net.AllOurs, net.Distinct, net.TooSlow, clock.Shown, OnlyFrom;
      died, now, t := false, time, clock.ticks - 1;
      while |route.queue| > 0 && route.queue[0].txTime <= now
        invariant net.Flowing() && net.AllOurs(runRouters.items) && net.Everything() == old(net.Everything())
        invariant net.Work() < old(net.Work())
               || (net.Work() == old(net.Work()) && runRouters.items == old(runRouters.items))
        invariant old(clock.ticks) <= t + 1 <= clock.ticks && now == clock.Shown(t)
        invariant OnlyFrom(net.Owners(), a[k := route.queue], net.Queues(), i, runRouters.items)
        decreases net.Work()
      {
        ghost var u := t;
        t := clock.ticks;
        died, now := SendHead(net, route, clock, runRouters, k, a, i, u);
        if died { return; }
      }
    }

    /** Sends what is due on one link, the k-th of all; t is the last reading of the clock. */
    method DrainLink(net: Network, route: NSQueue, clock: Clock, runRouters: RunList)
      returns (died: bool, now: real, ghost k: nat, ghost t: nat)
      requires net.Static() && net.Flowing() && route in net.links
      requires net.AllOurs(runRouters.items)
      modifies net.routers.Values`bytesSent, runRouters`items, net.links, net`delivered, net`lost, clock`ticks
      ensures net.Flowing() && net.AllOurs(runRouters.items)
      ensures k < |net.links| && net.links[k] == route
      ensures died ==> net.TooSlow()
      ensures !died ==>
                && net.Everything() == old(net.Everything())
                && (net.Work() < old(net.Work())
                    || (net.Work() == old(net.Work()) && runRouters.items == old(runRouters.items)))
                && old(clock.ticks) <= t < clock.ticks && now == clock.Shown(t)
                && (route.queue == [] || route.queue[0].txTime > now)
      ensures OnlyFrom(net.Owners(), old(net.Queues())[k := route.queue], net.Queues(),
                       old(runRouters.items), runRouters.items)
    {
      hide net.Static, net.Flowing, net.Everything, net.Work, net.Queues, net.Owners, net.Contents, net.Has,
           net.AllOurs, net.Distinct, net.TooSlow, clock.Shown, OnlyFrom;
      ghost var a, i := net.Queues(), runRouters.items;
      k := net.IndexOf(route);
      net.LengthsAt(k);
      net.NothingMoved(i);
      assert a[k := route.queue] == a;
      var time := clock.Now();
      died, now, t := SendDue(net, route, clock, runRouters, time, k, a, i);
    }

    /** Sends what is due on the link to router j, if there is one; what the earlier links were left with is known
        from a and t0 on. */
    method ServeLink(net: Network, j: nat, clock: Clock, runRouters: RunList, wait: Sleep,
                     ghost a: seq<seq<Item>>, ghost t0: nat, ghost i: seq<NSRouter>)
      returns (died: bool, less: Sleep)
      requires net.Static() && net.Flowing() && net.Has(this) && net.AllOurs(runRouters.items) && t0 <= clock.ticks
      requires Served(net.Owners(), net.Heads(), net.Queues(), this, j, clock, t0, clock.ticks, wait,
                      i, runRouters.items)
      requires OthersKept(net.Owners(), a, net.Queues(), this, i, runRouters.items)
      modifies net.routers.Values`bytesSent, runRouters`items, net.links, net`delivered, net`lost, clock`ticks
      ensures net.Flowing() && net.AllOurs(runRouters.items) && (died ==> net.TooSlow())
      ensures !died ==>
                && net.Everything() == old(net.Everything()) && t0 <= clock.ticks
                && (net.Work() < old(net.Work())
                    || (net.Work() == old(net.Work()) && runRouters.items == old(runRouters.items)))
                && Served(net.Owners(), net.Heads(), net.Queues(), this, j + 1, clock, t0, clock.ticks, less,
                          i, runRouters.items)
                && OthersKept(net.Owners(), a, net.Queues(), this, i, runRouters.items)
    {
      hide net.Static, net.Flowing, net.Everything, net.Work, net.Has, net.Queues, net.Owners, net.Heads, net.AllOurs,
           net.TooSlow, net.Contents, net.Distinct, clock.Shown, OnlyFrom, Served, OthersKept, Sooner;
      died, less := false, wait;
      ghost var b, mid, t1 := net.Queues(), runRouters.items, clock.ticks;
      net.NothingMoved(mid);
      if j in routes {
        net.OwnRoutes(this);
        var now;
        ghost var x;
        ghost var t;
        died, now, x, t := DrainLink(net, routes[j], clock, runRouters);
        if died { return; }
        net.LengthsAt(x);
        net.OneOwnLink(this, j, x);
        OthersStep(net.Owners(), a, b, net.Queues(), this, x, i, mid, runRouters.items);
        ServedStep(net.Owners(), net.Heads(), b, net.Queues(), this, j, x, clock, t0, t1, t, clock.ticks, wait,
                   i, mid, runRouters.items);
        if routes[j].queue != [] {
          less := Sooner(wait, Seconds(routes[j].queue[0].txTime - now));
        }
      } else {
        net.OwnLinks(this, j);
        ServedSkip(net.Owners(), net.Heads(), b, this, j, clock, t0, t1, wait, i, mid);
      }
    }

    /** Sends what is due on every link of this router, in the order of the links, and tells how long the next
        packet on one of them has to wait. */
    method Run(net: Network, clock: Clock, runRouters: RunList) returns (died: bool, wait: Sleep)
      requires net.Static() && net.Flowing() && net.Has(this)
      requires net.AllOurs(runRouters.items)
      modifies net.routers.Values`bytesSent, runRouters`items, net.links, net`delivered, net`lost, clock`ticks
      ensures net.Flowing() && net.AllOurs(runRouters.items) && (died ==> net.TooSlow())
      ensures !died ==>
                && net.Everything() == old(net.Everything())
                && (net.Work() < old(net.Work())
                    || (net.Work() == old(net.Work()) && runRouters.items == old(runRouters.items)))
                && old(clock.ticks) <= clock.ticks
                && Served(net.Owners(), net.Heads(), net.Queues(), this, net.n, clock,
                          old(clock.ticks), clock.ticks, wait, old(runRouters.items), runRouters.items)
                && OthersKept(net.Owners(), old(net.Queues()), net.Queues(), this,
                              old(runRouters.items), runRouters.items)
    {
      hide net.Static, net.Flowing, net.Everything, net.Work, net.Has, net.Queues, net.Owners, net.Heads, net.AllOurs,
           net.TooSlow, Served, OthersKept;
      died, wait := false, Forever;
      ghost var a, i, t0 := net.Queues(), runRouters.items, clock.ticks;
      net.NothingMoved(i);
      ServedStart(net.Owners(), net.Heads(), a, this, clock, t0, i);
      OthersStart(net.Owners(), a, this, i);
      for j := 0 to net.n
        invariant net.Flowing() && net.AllOurs(runRouters.items) && net.Everything() == old(net.Everything())
        invariant net.Work() < old(net.Work())
               || (net.Work() == old(net.Work()) && runRouters.items == old(runRouters.items))
        invariant t0 <= clock.ticks && !died
        invariant Served(net.Owners(), net.Heads(), net.Queues(), this, j, clock, t0, clock.ticks, wait,
                         i, runRouters.items)
        invariant OthersKept(net.Owners(), a, net.Queues(), this, i, runRouters.items)
      {
        died, wait := ServeLink(net, j, clock, runRouters, wait, a, t0, i);
        if died { return; }
      }
    }

    lemma RouteExists(vs: map<nat, NSRouter>, g: Graph, h: nat)
      requires Shows(vs, g) && id in vs && vs[id] == this && (id, h) in g.links
      ensures h in routes
    {
      hide WellFormed;
    }

    ghost predicate TableUpTo(g: Graph, i: nat)
      requires Routable(g) && id in g.nodes
      reads this`routingTable, this`routes
    {
      && (forall v :: v in routingTable <==> v in g.nodes && v != id && v < i)
      && (forall v :: v in routingTable && v in g.nodes && v != id ==>
            NextHop(g, id, v) in routes && routingTable[v] == routes[NextHop(g, id, v)])
    }

    lemma SkipRoute(g: Graph, i: nat)
      requires Routable(g) && id in g.nodes && TableUpTo(g, i) && (i !in g.nodes || i == id)
      ensures TableUpTo(g, i + 1)
    {
      hide Routable, NextHop;
    }

    method StoreRoute(ghost g: Graph, i: nat, start: NSRouter)
      requires Routable(g) && id in g.nodes && i in g.nodes && i != id && TableUpTo(g, i)
      requires start.id == NextHop(g, id, i) && start.id in routes
      modifies this`routingTable
      ensures TableUpTo(g, i + 1)
    {
      hide Routable, NextHop;
      routingTable := routingTable[i := routes[start.id]];
    }

    method FillEntry(vs: map<nat, NSRouter>, ghost g: Graph, i: nat)
      requires Shows(vs, g) && Routable(g) && id in vs && vs[id] == this && id in g.nodes
      requires Matches(vs, FinalLabels(g, id)) && TableUpTo(g, i)
      modifies this`routingTable
      ensures Shows(vs, g) && Matches(vs, FinalLabels(g, id)) && TableUpTo(g, i + 1)
    {
      hide Shows, Matches, NextHop, TableUpTo, Routable, FinalLabels, Complete, FirstHop;
      NodesAre(vs, g);
      if i in vs && i != id {
        NextHopIsFirstHop(g, id, i);
        var start := WalkBack(vs, g, FinalLabels(g, id), id, i);
        RouteExists(vs, g, start.id);
        StoreRoute(g, i, start);
      } else {
        SkipRoute(g, i);
      }
    }

    lemma EmptyTable(g: Graph)
      requires Routable(g) && id in g.nodes && routingTable == map[]
      ensures TableUpTo(g, 0)
    {
      hide Routable, NextHop;
    }

    /** The table names, for every other router, the queue towards the next hop, and nothing else. */
    ghost predicate TableOk(g: Graph)
      requires Routable(g) && id in g.nodes
      reads this`routingTable, this`routes
    {
      TableUpTo(g, g.n)
    }

    method FillTable(vs: map<nat, NSRouter>, n: nat, ghost g: Graph)
      requires Shows(vs, g) && g.n == n && Routable(g) && id in vs && vs[id] == this && id in g.nodes
      requires Matches(vs, FinalLabels(g, id))
      modifies this`routingTable
      ensures Shows(vs, g) && Matches(vs, FinalLabels(g, id)) && TableOk(g)
    {
      hide Shows, Matches, TableUpTo, Routable, FinalLabels;
      routingTable := map[];
      EmptyTable(g);
      for i := 0 to n
        invariant Shows(vs, g) && Matches(vs, FinalLabels(g, id)) && TableUpTo(g, i)
      {
        FillEntry(vs, g, i);
      }
    }

    /** Shortest-path tables by Dijkstra's algorithm on the shared records: for every other router the queue
        towards the next hop, whatever `distance`, `done` and `predecessor` held before. */
    method CreateTable(vs: map<nat, NSRouter>, n: nat, ghost g: Graph)
      requires Shows(vs, g) && g.n == n && Routable(g) && id in vs && vs[id] == this
      modifies this`routingTable, vs.Values`distance, vs.Values`done, vs.Values`predecessor
      ensures TableOk(g)
      ensures forall v :: v in g.nodes ==> vs[v].distance == Dist(g, id, v)
    {
      hide Matches, Start, Visits, Connected, TableUpTo;
      NodesAre(vs, g);
      SetBaseState(vs, n, g, id);
      VisitAll(vs, n, g, id);
      FillTable(vs, n, g);
      LabelsAreDistances(vs, g, id);
    }

    lemma TableEntry(g: Graph, d: nat)
      requires Routable(g) && id in g.nodes && TableOk(g) && d in routingTable
      ensures d in g.nodes && d != id && NextHop(g, id, d) in routes && routingTable[d] == routes[NextHop(g, id, d)]
    {
      hide NextHop, Routable;
    }
  }

  /** Each router's own table brings a packet one hop nearer. */
  lemma NextHopSavesOne(g: Graph, nodes: map<(nat, nat), nat>, u: nat, pkt: Packet)
    requires Routable(g) && u in g.nodes && Known(g, nodes, pkt) && DestOf(nodes, pkt).id != u
    ensures HopsLeft(g, nodes, u, pkt) == 1 + HopsLeft(g, nodes, NextHop(g, u, DestOf(nodes, pkt).id), pkt)
  {
    hide NextHop, Dist;
    NextHopIsCloser(g, u, DestOf(nodes, pkt).id);
  }

  ghost function GraphOf(n: nat, adj: map<nat, set<nat>>): Graph {
    Graph(n, adj.Keys, set i, j | i in adj && j in adj[i] :: (i, j))
  }

  ghost predicate Enumerates(q: seq<NSQueue>, s: set<NSQueue>) {
    (forall x :: x in q ==> x in s) && (forall x :: x in s ==> x in q)
  }

  ghost function Enumerate(s: set<NSQueue>): (q: seq<NSQueue>)
    ensures Enumerates(q, s)
    ensures forall j, k :: 0 <= j < k < |q| ==> q[j] != q[k]
  {
    if s == {} then [] else
      var x :| x in s;
      [x] + Enumerate(s - {x})
  }

  ghost function AllQueues(vs: map<nat, NSRouter>): set<NSQueue>
    reads vs.Values`routes
  {
    set i, j | i in vs && j in vs[i].routes :: vs[i].routes[j]
  }

  ghost function HeadsOf(links: seq<NSQueue>): (h: seq<nat>)
    ensures |h| == |links| && forall k :: 0 <= k < |h| ==> h[k] == links[k].routeRef.id
  {
    if links == [] then [] else [links[0].routeRef.id] + HeadsOf(links[1..])
  }

  ghost function ContentsOf(links: seq<NSQueue>): (c: seq<seq<Packet>>)
    reads links
    ensures |c| == |links| && forall k :: 0 <= k < |c| ==> c[k] == Packets(links[k].queue)
  {
    if links == [] then [] else [Packets(links[0].queue)] + ContentsOf(links[1..])
  }

  ghost function CountsOf(links: seq<NSQueue>): (c: seq<nat>)
    reads links`dropped
    ensures |c| == |links| && forall k :: 0 <= k < |c| ==> c[k] == links[k].dropped
  {
    if links == [] then [] else [links[0].dropped] + CountsOf(links[1..])
  }

  ghost function QueuesOf(links: seq<NSQueue>): (c: seq<seq<Item>>)
    reads links`queue
    ensures |c| == |links| && forall k :: 0 <= k < |c| ==> c[k] == links[k].queue
  {
    if links == [] then [] else [links[0].queue] + QueuesOf(links[1..])
  }

  ghost function OwnersOf(links: seq<NSQueue>): (c: seq<NSRouter>)
    ensures |c| == |links| && forall k :: 0 <= k < |c| ==> c[k] == links[k].owner
  {
    if links == [] then [] else [links[0].owner] + OwnersOf(links[1..])
  }

  function WithRouter(adj: map<nat, set<nat>>, i: nat): (r: map<nat, set<nat>>)
    ensures i in r
  {
    if i in adj then adj else adj[i := {}]
  }

  function WithArc(adj: map<nat, set<nat>>, i: nat, j: nat): map<nat, set<nat>>
    requires i in adj
  {
    adj[i := adj[i] + {j}]
  }

  function WithLink(adj: map<nat, set<nat>>, i: nat, j: nat): map<nat, set<nat>> {
    WithArc(WithArc(WithRouter(WithRouter(adj, j), i), j, i), i, j)
  }

  ghost predicate Symmetric(adj: map<nat, set<nat>>) {
    forall i, j :: i in adj && j in adj[i] ==> j in adj && i in adj[j]
  }

  /** Links read from the map exist in both directions, whatever lines precede. */
  lemma WithLinkSymmetric(adj: map<nat, set<nat>>, from: nat, to: nat)
    requires Symmetric(adj)
    ensures var r := WithLink(adj, from, to);
            && Symmetric(r) && r.Keys == adj.Keys + {from, to}
            && forall i, j :: i in r && j in r[i] <==>
                 (i in adj && j in adj[i]) || (i == from && j == to) || (i == to && j == from)
  {
  }

  /** What the map says of a link in one direction: bytes per second, seconds and packets. */
  datatype Wire = NoWire | Wire(rate: int, latency: real, max: nat)

  /** All routers and links, with the books that conservation is stated on. */
  class Network {
    const nodes: map<(nat, nat), nat>
    var n: nat
    var routers: map<nat, NSRouter>
    ghost var g: Graph
    ghost var links: seq<NSQueue>
    ghost var injected: multiset<Packet>
    ghost var delivered: multiset<Packet>
    ghost var lost: multiset<Packet>

    ghost function Contents(): seq<seq<Packet>>
      reads this`links, links
    {
      ContentsOf(links)
    }

    ghost function Queues(): seq<seq<Item>>
      reads this`links, links`queue
    {
      QueuesOf(links)
    }

    ghost function Owners(): seq<NSRouter>
      reads this`links
    {
      OwnersOf(links)
    }

    ghost function Heads(): seq<nat>
      reads this`links
    {
      HeadsOf(links)
    }

    /** The queues after a packet has come to link k at this time, unless that is full or has rate 0. */
    ghost function Joined(qs: seq<seq<Item>>, k: nat, pkt: Packet, time: real): seq<seq<Item>>
      reads this`links
      requires k < |qs| == |links|
    {
      var q := links[k];
      if |qs[k]| >= q.max || q.rate == 0 then qs
      else qs[k := qs[k] + [Item(pkt, q.DueAt(time, pkt.length, TotalLength(Packets(qs[k]))))]]
    }

    ghost predicate Has(r: NSRouter)
      reads this`routers, this`g
    {
      r.id in routers && routers[r.id] == r && r.id in g.nodes && r.nodes == nodes
    }

    ghost predicate Distinct()
      reads this`links
    {
      forall j, k :: 0 <= j < k < |links| ==> links[j] != links[k]
    }

    ghost predicate Knows(r: NSRouter)
      reads this`routers
    {
      r.id in routers && routers[r.id] == r && r.nodes == nodes
    }

    /** The link is where its router keeps it. */
    ghost predicate Leaves(q: NSQueue)
      reads this`routers, routers.Values`routes
    {
      Knows(q.owner) && q.routeRef.id in q.owner.routes && q.owner.routes[q.routeRef.id] == q
    }

    /** What does not change while packets move: topology, tables and wiring. */
    ghost predicate Static()
      reads this`n, this`routers, this`g, this`links, routers.Values`routes, routers.Values`routingTable
    {
      && Shows(routers, g) && g.n == n && Routable(g)
      && (forall i :: i in routers ==>
            routers[i].nodes == nodes && routers[i].id == i && i in g.nodes && routers[i].TableOk(g))
      && (forall i, j :: i in routers && j in routers[i].routes ==>
            routers[i].routes[j] in links && routers[i].routes[j].owner == routers[i])
      && (forall k :: 0 <= k < |links| ==> Has(links[k].routeRef) && Leaves(links[k]))
      && Distinct()
    }

    ghost predicate AllOurs(rs: seq<NSRouter>)
      reads this`routers, this`g
    {
      forall i :: 0 <= i < |rs| ==> Has(rs[i])
    }

    ghost function Drops(): seq<nat>
      reads this`links, links`dropped
    {
      CountsOf(links)
    }

    ghost predicate QueuesOk()
      reads this`links, this`g, links
    {
      && (forall k :: 0 <= k < |links| ==> links[k].Valid())
      && (forall k, i :: 0 <= k < |links| && 0 <= i < |links[k].queue| ==> Known(g, nodes, links[k].queue[i].pkt))
    }

    /** Queues are well formed and hold packets for routers only; the packets booked as lost are as many as the
        links have counted. */
    ghost predicate Flowing()
      reads this`links, this`g, this`lost, links
    {
      QueuesOk() && |lost| == Sum(Drops())
    }

    // What one packet changes.

    twostate predicate Still()
      reads this, links
    {
      Contents() == old(Contents()) && Drops() == old(Drops()) && delivered == old(delivered) && lost == old(lost)
    }

    /** The packet is the last on link k, or the link has counted one drop more; c, d and l is what was queued,
        counted and lost before. */
    ghost predicate PutOn(c: seq<seq<Packet>>, d: seq<nat>, l: multiset<Packet>, k: nat, pkt: Packet)
      reads this`links, this`lost, links
    {
      && k < |links| == |c| == |d|
      && if |c[k]| < links[k].max
         then Contents() == c[k := c[k] + [pkt]] && Drops() == d && lost == l
         else Contents() == c && Drops() == d[k := d[k] + 1] && lost == l + multiset{pkt}
    }

    /** What a packet for a known destination makes of router r: it is delivered there, or put on link m, the one
        that r's table names. */
    ghost predicate Passed(c: seq<seq<Packet>>, d: seq<nat>, l: multiset<Packet>, dl: multiset<Packet>,
                           r: NSRouter, m: nat, pkt: Packet)
      reads this`links, this`lost, this`delivered, links, r`routingTable
    {
      var dest := DestOf(nodes, pkt);
      && dest.Node?
      && if dest.id == r.id then
           Contents() == c && Drops() == d && lost == l && delivered == dl + multiset{pkt}
         else
           dest.id in r.routingTable && m < |links| && links[m] == r.routingTable[dest.id]
           && delivered == dl && PutOn(c, d, l, m, pkt)
    }

    ghost function Everything(): multiset<Packet>
      reads this`links, links, this`delivered, this`lost
    {
      delivered + lost + OnLinks(Contents())
    }

    /** Every packet injected for a known destination is in exactly one place: delivered, lost, or in one queue;
        and the lost ones are those that the links have counted as dropped. */
    ghost predicate Conserved()
      reads this`links, links, this`delivered, this`lost, this`injected
    {
      injected == Everything() && |lost| == Sum(Drops())
    }

    /** The number of links that the queued packets still have to cross. */
    ghost function Work(): nat
      reads this`links, links, this`g
    {
      LinkWork(g, nodes, HeadsOf(links), Contents())
    }

    /** The link from router i to router j. */
    ghost function WireFrom(i: nat, j: nat): Wire
      reads this`routers, routers.Values`routes
    {
      if i in routers && j in routers[i].routes then
        var q := routers[i].routes[j];
        Wire(q.rate, q.latency, q.max)
      else NoWire
    }

    ghost predicate Linked(i: nat, j: nat)
      reads this`routers, routers.Values`routes, AllQueues(routers)
    {
      && i in routers && j in routers[i].routes && j in routers
      && routers[i].routes[j].routeRef == routers[j] && routers[i].routes[j].owner == routers[i]
      && routers[i].routes[j].Valid() && routers[i].routes[j].queue == [] && routers[i].routes[j].dropped == 0
    }

    /** While the map is read: routers at their identifiers, and links with empty queues. */
    ghost predicate Wiring()
      reads this`n, this`routers, routers.Values`routes, AllQueues(routers)
    {
      && (forall i :: i in routers ==> routers[i].id == i && i < n && routers[i].nodes == nodes)
      && (forall i, j :: i in routers && j in routers[i].routes ==> Linked(i, j))
    }

    /** After each line of the map every link also has the way back. */
    ghost predicate Loaded()
      reads this`n, this`routers, routers.Values`routes, AllQueues(routers)
    {
      Wiring() && Symmetric(Neighbours(routers))
    }

    /** A quiet network with its routers read from the node file. */
    constructor (nodes: map<(nat, nat), nat>)
      ensures Loaded() && routers == map[] && this.nodes == nodes && injected == delivered == lost == multiset{}
    {
      this.nodes := nodes;
      n, routers := 0, map[];
      links, injected, delivered, lost := [], multiset{}, multiset{}, multiset{};
      g := Graph(0, {}, {});
    }

    method AddRouter(id: nat)
      requires Wiring()
      modifies this`n, this`routers
      ensures Wiring() && id in routers && routers[id].id == id
      ensures id in old(routers) ==> routers == old(routers)
      ensures id !in old(routers) ==> fresh(routers[id]) && routers == old(routers)[id := routers[id]]
      ensures Neighbours(routers) == WithRouter(old(Neighbours(routers)), id)
      ensures forall i, j :: WireFrom(i, j) == old(WireFrom(i, j))
    {
      hide Neighbours, NSQueue.Valid, AllQueues;
      if id !in routers {
        ghost var was := routers;
        var r := new NSRouter(id, nodes);
        NeighboursWith(was, id, r);
        routers := routers[id := r];
        n := if id < n then n else id + 1;
        forall i, j | i in routers && j in routers[i].routes ensures Linked(i, j) {
          assert i != id && old(Linked(i, j));
        }
      } else {
        HasNeighbours(routers, id);
      }
    }

    lemma OneArc(was: map<nat, set<nat>>, i: nat, j: nat)
      requires i in routers && was.Keys == routers.Keys && routers[i].routes.Keys == was[i] + {j}
      requires forall x :: x in routers && x != i ==> routers[x].routes.Keys == was[x]
      ensures Neighbours(routers) == WithArc(was, i, j)
    {
    }

    lemma OthersThan(a: NSRouter)
      requires Wiring()
      ensures forall i :: i in routers && i != a.id ==> routers[i] != a
    {
      hide AllQueues;
    }

    /** The wiring stays when a fresh link is added. */
    lemma StillWired(a: NSRouter, b: NSRouter)
      requires a.id in routers && routers[a.id] == a && Linked(a.id, b.id)
      requires forall i :: i in routers ==> routers[i].id == i && i < n && routers[i].nodes == nodes
      requires forall i, j :: i in routers && j in routers[i].routes && !(i == a.id && j == b.id) ==> Linked(i, j)
      ensures Wiring()
    {
      hide Linked, AllQueues;
    }

    method AddOneWay(a: NSRouter, b: NSRouter, rate: nat, latency: real, max: nat)
      requires Wiring() && a.id in routers && routers[a.id] == a && b.id in routers && routers[b.id] == b
      modifies a`routes
      ensures Wiring()
      ensures Neighbours(routers) == WithArc(old(Neighbours(routers)), a.id, b.id)
      ensures forall i, j ::
                WireFrom(i, j) == if i == a.id && j == b.id then Wire(rate / 8, latency, if max == 0 then 10 else max)
                                  else old(WireFrom(i, j))
    {
      hide AllQueues, Neighbours, WithArc;
      OthersThan(a);
      ghost var arcs := Neighbours(routers);
      AllNeighbours(routers);
      a.AddRoute(b, rate, latency, max);
      forall i, j | i in routers && j in routers[i].routes && !(i == a.id && j == b.id) ensures Linked(i, j) {
        assert old(Linked(i, j));
      }
      StillWired(a, b);
      OneArc(arcs, a.id, b.id);
    }

    /** One line of the map: the link is added both ways. */
    method AddLink(from: nat, to: nat, rate: nat, latency: real, max: nat)
      requires Loaded()
      modifies this`n, this`routers, routers.Values`routes
      ensures Loaded()
      ensures Neighbours(routers) == WithLink(old(Neighbours(routers)), from, to)
      ensures var wire := Wire(rate / 8, latency, if max == 0 then 10 else max);
              forall i, j :: WireFrom(i, j) == if (i == to && j == from) || (i == from && j == to) then wire
                                               else old(WireFrom(i, j))
    {
      hide Wiring, Neighbours, Symmetric, WithArc, WithRouter, WireFrom;
      WithLinkSymmetric(Neighbours(routers), from, to);
      AddRouter(to);
      AddRouter(from);
      AddOneWay(routers[to], routers[from], rate, latency, max);
      AddOneWay(routers[from], routers[to], rate, latency, max);
    }

    lemma RouteLeads(r: NSRouter, j: nat)
      requires Shows(routers, g) && Has(r) && j in r.routes
      ensures r.routes[j].routeRef.id == j
    {
    }

    lemma OwnedBy(k: nat, r: NSRouter, j: nat)
      requires Static() && k < |links| && Has(r) && j in r.routes && links[k] == r.routes[j]
      ensures links[k].owner == r
    {
      hide Shows, Routable;
    }

    lemma LinkOf(r: NSRouter, pkt: Packet, d: nat) returns (k: nat)
      requires Static() && Has(r) && DestOf(nodes, pkt) == Node(d) && d in r.routingTable
      ensures Known(g, nodes, pkt) && d != r.id && Distinct()
      ensures k < |links| && links[k] == r.routingTable[d] && links[k].routeRef.id == NextHop(g, r.id, d)
      ensures links[k].owner == r
      ensures HopsLeft(g, nodes, r.id, pkt) == 1 + HopsLeft(g, nodes, links[k].routeRef.id, pkt)
    {
      hide NextHop, Shows, Routable, HopsLeft;
      hide r.TableOk;
      r.TableEntry(g, d);
      NextHopSavesOne(g, nodes, r.id, pkt);
      k :| 0 <= k < |links| && links[k] == r.routes[NextHop(g, r.id, d)];
      assert links[k].routeRef.id == NextHop(g, r.id, d) by { RouteLeads(r, NextHop(g, r.id, d)); }
    }

    lemma IndexOf(q: NSQueue) returns (k: nat)
      requires Static() && q in links
      ensures k < |links| && links[k] == q && Distinct() && Has(q.routeRef)
      ensures q.routeRef in routers.Values && q.routeRef.nodes == nodes
    {
      hide Shows, Routable;
      k :| 0 <= k < |links| && links[k] == q;
    }

    lemma OwnRoutes(r: NSRouter)
      requires Static() && Has(r)
      ensures forall j :: j in r.routes ==> r.routes[j] in links
    {
      hide Shows, Routable;
    }

    /** Some link has a rate of 0 bytes per second. */
    ghost predicate TooSlow()
      reads this`links
    {
      exists k :: 0 <= k < |links| && links[k].rate == 0
    }

    lemma SlowLink(k: nat)
      requires k < |links| && links[k].rate == 0
      ensures TooSlow()
    {
    }

    lemma LengthsOf()
      ensures |Contents()| == |Queues()| == |Owners()| == |links|
      ensures forall k :: 0 <= k < |links| ==> |Contents()[k]| == |links[k].queue| && Queues()[k] == links[k].queue
    {
    }

    lemma SameIndex(j: nat, k: nat)
      requires Static() && j < |links| && k < |links| && links[j] == links[k]
      ensures j == k
    {
    }

    lemma LinkAt(k: nat)
      requires Static() && k < |links|
      ensures Owners()[k] == links[k].owner && Heads()[k] == links[k].routeRef.id && Leaves(links[k])
    {
      hide Routable, Shows;
    }

    lemma NoOwnLink(r: NSRouter, j: nat, k: nat)
      requires Static() && j !in r.routes && k < |links| && Owners()[k] == r
      ensures Heads()[k] != j
    {
      hide Static;
      LinkAt(k);
    }

    /** The link towards router j, among all links. */
    lemma OwnLink(r: NSRouter, j: nat, x: nat, k: nat)
      requires Static() && Has(r) && j in r.routes && x < |links| && links[x] == r.routes[j]
      requires k < |links| && Owners()[k] == r
      ensures Heads()[k] == j <==> k == x
    {
      hide Routable, Shows, Heads, Owners;
      LinkAt(k);
      RouteLeads(r, j);
    }

    lemma OwnLinks(r: NSRouter, j: nat)
      requires Static() && Has(r)
      ensures |Heads()| == |links| == |Owners()|
      ensures j !in r.routes ==> forall k :: 0 <= k < |links| && Owners()[k] == r ==> Heads()[k] != j
    {
      hide Static, Has;
      forall k | 0 <= k < |links| && Owners()[k] == r && j !in r.routes ensures Heads()[k] != j {
        NoOwnLink(r, j, k);
      }
    }

    lemma OneOwnLink(r: NSRouter, j: nat, x: nat)
      requires Static() && Has(r) && j in r.routes && x < |links| && links[x] == r.routes[j]
      ensures |Heads()| == |links| == |Owners()| && Owners()[x] == r
      ensures forall k :: 0 <= k < |links| && Owners()[k] == r ==> (Heads()[k] == j <==> k == x)
    {
      hide Static, Has;
      OwnedBy(x, r, j);
      forall k | 0 <= k < |links| && Owners()[k] == r ensures Heads()[k] == j <==> k == x {
        OwnLink(r, j, x, k);
      }
    }

    lemma LengthsAt(k: nat)
      requires k < |links|
      ensures |Contents()| == |Queues()| == |Owners()| == |Drops()| == |links|
      ensures |Contents()[k]| == |links[k].queue| && Queues()[k] == links[k].queue
    {
    }

    lemma NothingMoved(items: seq<NSRouter>)
      ensures |Queues()| == |links| == |Owners()| == |Heads()|
      ensures OnlyFrom(Owners(), Queues(), Queues(), items, items)
    {
    }

    lemma OneMoved(was: seq<seq<Item>>, k: nat, pkt: Packet, time: real, items: seq<NSRouter>, r: NSRouter)
      requires k < |links| == |was| && links[k].owner == r && Queues() == Joined(was, k, pkt, time)
      ensures OnlyFrom(Owners(), was, Queues(), items, items + [r])
    {
      assert (items + [r])[|items|..] == [r];
    }

    lemma NoneJoined(was: seq<seq<Item>>, k: nat, pkt: Packet, time: real)
      requires k < |links| == |was| && links[k].rate == 0
      ensures Joined(was, k, pkt, time) == was
    {
    }

    lemma JoinedMeans(was: seq<seq<Item>>, k: nat, pkt: Packet, time: real)
      requires k < |links| == |was|
      ensures var q := links[k];
              Joined(was, k, pkt, time)
              == if |was[k]| >= q.max || q.rate == 0 then was
                 else was[k := was[k] + [Item(pkt, time + q.latency + pkt.length as real / q.rate as real
                                                   + TotalLength(Packets(was[k])) as real / q.rate as real)]]
    {
    }

    lemma NoTableEntry(r: NSRouter, pkt: Packet, d: nat)
      requires Static() && Has(r) && DestOf(nodes, pkt) == Node(d) && d !in r.routingTable && d != r.id
      ensures !Known(g, nodes, pkt)
    {
      assert r.TableOk(g);
    }

    lemma KnownHere(r: NSRouter, pkt: Packet)
      requires Has(r)
      ensures Known(g, nodes, pkt) ==> DestOf(nodes, pkt).Node?
      ensures DestOf(nodes, pkt) == Node(r.id) ==> Known(g, nodes, pkt)
    {
    }

    ghost method Deliver(r: NSRouter, pkt: Packet)
      requires Has(r) && Flowing() && DestOf(nodes, pkt) == Node(r.id)
      modifies this`delivered
      ensures Flowing() && delivered == old(delivered) + multiset{pkt}
      ensures Everything() == old(Everything()) + multiset{pkt} && Work() == old(Work())
    {
      hide Contents, Drops, Work, Known;
      delivered := delivered + multiset{pkt};
    }

    ghost method Lose(pkt: Packet)
      requires QueuesOk()
      modifies this`lost
      ensures lost == old(lost) + multiset{pkt} && QueuesOk()
    {
      hide QueuesOk;
      lost := lost + multiset{pkt};
    }

    method Offer(ghost k: nat, q: NSQueue, pkt: Packet, vtime: real) returns (r: Queuing)
      requires QueuesOk() && Distinct() && k < |links| && links[k] == q && Known(g, nodes, pkt)
      modifies q
      ensures QueuesOk() && (r == Dropped <==> |old(q.queue)| >= q.max)
      ensures r == DividedByZero <==> |old(q.queue)| < q.max && q.rate == 0
      ensures Contents() == if r == Accepted then old(Contents())[k := old(Contents())[k] + [pkt]] else old(Contents())
      ensures Drops() == if r == Dropped then old(Drops())[k := old(Drops())[k] + 1] else old(Drops())
      ensures Queues() == Joined(old(Queues()), k, pkt, vtime)
    {
      hide Known, ContentsOf, CountsOf, QueuesOf, Packets, TotalLength, NSQueue.Valid;
      ghost var c, d, qs := Contents(), Drops(), Queues();
      ghost var after := Joined(qs, k, pkt, vtime);
      r := q.EnQ(pkt, vtime);
      assert Contents() == if r == Accepted then c[k := c[k] + [pkt]] else c;
      assert Drops() == if r == Dropped then d[k := d[k] + 1] else d;
      assert Queues() == after;
    }

    method OfferOrLose(ghost k: nat, q: NSQueue, pkt: Packet, vtime: real) returns (died: bool)
      requires QueuesOk() && Distinct() && k < |links| && links[k] == q && Known(g, nodes, pkt)
      modifies q, this`lost
      ensures QueuesOk() && (died <==> q.rate == 0 && |old(q.queue)| < q.max)
      ensures if died then Still() else PutOn(old(Contents()), old(Drops()), old(lost), k, pkt)
      ensures Queues() == Joined(old(Queues()), k, pkt, vtime)
    {
      hide QueuesOk, Known, Contents, Drops, Queues, Joined;
      LengthsAt(k);
      var r := Offer(k, q, pkt, vtime);
      died := r == DividedByZero;
      if r == Dropped { Lose(pkt); }
    }

    lemma OneMoreOn(c: seq<seq<Packet>>, d: seq<nat>, l: multiset<Packet>, k: nat, pkt: Packet)
      requires PutOn(c, d, l, k, pkt)
      ensures Everything() == delivered + l + OnLinks(c) + multiset{pkt}
      ensures |links| == |c| && |lost| - Sum(Drops()) == |l| - Sum(d)
      ensures Work() <= LinkWork(g, nodes, HeadsOf(links), c) + 1 + HopsLeft(g, nodes, links[k].routeRef.id, pkt)
    {
      hide HopsLeft, LinkWork, QueueWork, OnLinks, Sum, HeadsOf, Contents, Drops;
      if |c[k]| < links[k].max {
        QueueWorkAppend(g, nodes, links[k].routeRef.id, c[k], pkt);
        LinkWorkUpdate(g, nodes, HeadsOf(links), c, k, c[k] + [pkt]);
        OnLinksAppend(c, k, pkt);
      } else {
        SumUpdate(d, k, d[k] + 1);
      }
    }

    method Enqueue(ghost k: nat, q: NSQueue, pkt: Packet, vtime: real) returns (died: bool)
      requires Flowing() && Distinct() && k < |links| && links[k] == q && Known(g, nodes, pkt)
      modifies q, this`lost
      ensures Flowing() && (died <==> q.rate == 0 && |old(q.queue)| < q.max)
      ensures if died then Still() else PutOn(old(Contents()), old(Drops()), old(lost), k, pkt)
      ensures !died ==> Everything() == old(Everything()) + multiset{pkt}
      ensures !died ==> Work() <= old(Work()) + 1 + HopsLeft(g, nodes, q.routeRef.id, pkt)
      ensures Queues() == Joined(old(Queues()), k, pkt, vtime)
    {
      hide HopsLeft, LinkWork, OnLinks, Sum, HeadsOf, QueuesOk, Known, PutOn, Contents, Drops, Queues, Joined;
      died := OfferOrLose(k, q, pkt, vtime);
      if !died { OneMoreOn(old(Contents()), old(Drops()), old(lost), k, pkt); }
    }

    method Dequeue(ghost k: nat, q: NSQueue, ghost time: real) returns (pkt: Packet)
      requires Flowing() && Distinct() && k < |links| && links[k] == q && q.queue != []
      requires q.queue[0].txTime <= time
      modifies q`queue, q`size, q`departed
      ensures Flowing() && Known(g, nodes, pkt)
      ensures Contents() == Headless(old(Contents()), k)
      ensures Queues() == Headless(old(Queues()), k) && pkt == old(q.queue)[0].pkt
      ensures Drops() == old(Drops())
      ensures Everything() + multiset{pkt} == old(Everything())
      ensures Work() + 1 + HopsLeft(g, nodes, q.routeRef.id, pkt) == old(Work())
    {
      hide Known, HopsLeft, LinkWork, OnLinks, HeadsOf, ContentsOf, CountsOf, QueuesOf, Sum, Packets, TotalLength,
           NSQueue.Valid;
      ghost var c, qs := Contents(), Queues();
      pkt := q.DeQ(time);
      assert Contents() == c[k := c[k][1..]];
      assert Queues() == qs[k := qs[k][1..]];
      LinkWorkUpdate(g, nodes, HeadsOf(links), c, k, c[k][1..]);
      OnLinksTail(c, k);
      assert c[k] == [pkt] + c[k][1..];
    }

    // ---------- starting up ----------

    ghost function Topology(): Graph
      reads this`n, this`routers, routers.Values`routes
    {
      GraphOf(n, Neighbours(routers))
    }

    lemma LoadedShows()
      requires Wiring()
      ensures Shows(routers, Topology()) && Topology().n == n && WellFormed(Topology())
      ensures forall i :: i in routers ==> Knows(routers[i])
    {
      assert forall i, j :: i in routers && j in routers[i].routes ==> Linked(i, j);
    }

    /** Two-way links: it is enough that one router reaches all. */
    lemma TopologyRoutable(root: nat)
      requires Loaded() && |routers| <= INFINITY && (routers == map[] || root in routers)
      requires forall v :: v in routers ==> Reachable(Topology(), root, v)
      ensures Routable(Topology())
    {
      hide Reachable, Wiring;
      LoadedShows();
      assert forall u, v :: (u, v) in Topology().links ==> (v, u) in Topology().links;
      ConnectedFrom(Topology(), root);
    }

    method CreateTables()
      requires Shows(routers, g) && g.n == n && Routable(g)
      modifies routers.Values`routingTable, routers.Values`distance, routers.Values`done, routers.Values`predecessor
      ensures Shows(routers, g)
      ensures forall i :: i in routers ==> routers[i].id == i && i in g.nodes && routers[i].TableOk(g)
    {
      hide Shows, Routable, NSRouter.TableUpTo;
      NodesAre(routers, g);
      for i := 0 to n
        invariant Shows(routers, g)
        invariant forall j :: j in routers && j < i ==> routers[j].TableOk(g)
      {
        if i in routers {
          routers[i].CreateTable(routers, n, g);
        }
      }
    }

    ghost predicate Unused(q: NSQueue)
      reads q
    {
      q.Valid() && q.queue == [] && q.dropped == 0
    }

    lemma Wired(q: seq<NSQueue>)
      requires Wiring() && Enumerates(q, AllQueues(routers))
      ensures forall k :: 0 <= k < |q| ==> Unused(q[k]) && Knows(q[k].routeRef) && Leaves(q[k])
      ensures forall i, j :: i in routers && j in routers[i].routes ==>
                routers[i].routes[j] in q && routers[i].routes[j].owner == routers[i]
    {
      forall k | 0 <= k < |q| ensures Unused(q[k]) && Knows(q[k].routeRef) && Leaves(q[k]) {
        assert q[k] in AllQueues(routers);
        var i, j :| i in routers && j in routers[i].routes && routers[i].routes[j] == q[k];
        assert Linked(i, j);
      }
      forall i, j | i in routers && j in routers[i].routes
        ensures routers[i].routes[j] in q && routers[i].routes[j].owner == routers[i]
      {
        assert routers[i].routes[j] in AllQueues(routers) && Linked(i, j);
      }
    }

    /** Opens the books over all links. */
    ghost method Book()
      requires Wiring()
      modifies this`g, this`links, this`injected, this`delivered, this`lost
      ensures g == old(Topology()) && Shows(routers, g) && g.n == n
      ensures injected == delivered == lost == multiset{} && Distinct()
      ensures forall i :: i in routers ==> Knows(routers[i])
      ensures forall k :: 0 <= k < |links| ==> Unused(links[k]) && Knows(links[k].routeRef) && Leaves(links[k])
      ensures forall i, j :: i in routers && j in routers[i].routes ==>
                routers[i].routes[j] in links && routers[i].routes[j].owner == routers[i]
    {
      hide Wiring, Shows, Topology, AllQueues, Enumerates, Unused;
      LoadedShows();
      Wired(Enumerate(AllQueues(routers)));
      g, links := Topology(), Enumerate(AllQueues(routers));
      injected, delivered, lost := multiset{}, multiset{}, multiset{};
    }

    lemma Quiet()
      requires forall k :: 0 <= k < |links| ==> Unused(links[k])
      requires injected == delivered == lost == multiset{}
      ensures Flowing() && Conserved()
    {
      hide NSQueue.Valid, OnLinks, Sum, ContentsOf, CountsOf;
      NothingOnLinks(Contents());
      SumNothing(Drops());
      assert multiset{} + multiset{} + multiset{} == injected;
    }

    /** Builds every routing table; afterwards packets may flow. */
    method Start(ghost root: nat)
      requires Loaded() && |routers| <= INFINITY && (routers == map[] || root in routers)
      requires forall v :: v in routers ==> Reachable(Topology(), root, v)
      modifies this`g, this`links, this`injected, this`delivered, this`lost
      modifies routers.Values`routingTable, routers.Values`distance, routers.Values`done, routers.Values`predecessor
      ensures g == old(Topology())
      ensures Static() && Flowing() && Conserved() && injected == multiset{}
    {
      hide Wiring, Routable, Shows, Topology, Symmetric, AllQueues, Enumerates, NSRouter.TableUpTo, Reachable;
      hide Flowing, Conserved, Unused;
      TopologyRoutable(root);
      Book();
      CreateTables();
      Quiet();
    }

    // ---------- the main loop ----------

    lemma KnownMeans(pkt: Packet)
      ensures Known(g, nodes, pkt) <==> DestOf(nodes, pkt).Node? && DestOf(nodes, pkt).id in g.nodes
    {
    }

    lemma BooksAgree()
      requires Conserved()
      ensures injected == Everything()
    {
    }

    lemma Booked()
      requires Flowing() && injected == Everything()
      ensures Conserved()
    {
    }

    ghost method Admit(more: multiset<Packet>)
      requires Flowing() && Everything() == injected + more
      modifies this`injected
      ensures Flowing() && Conserved() && injected == old(injected) + more
    {
      hide Contents, Drops, Sum, OnLinks;
      injected := injected + more;
    }

    lemma AllHad()
      requires Static()
      ensures forall i :: i in routers ==> Has(routers[i]) && routers[i].nodes == nodes && routers[i].id == i
      ensures g.nodes == routers.Keys
    {
      hide Routable;
      NodesAre(routers, g);
    }

    /** Hands a packet from outside to a router at time now; k is the link that the packet goes to. */
    method Enter(r: NSRouter, pkt: Packet, now: real, runRouters: RunList) returns (died: bool, ghost k: nat)
      requires Static() && Flowing() && Has(r) && r in routers.Values && r.nodes == nodes && AllOurs(runRouters.items)
      modifies routers.Values`bytesSent, runRouters`items, links, this`delivered, this`lost
      ensures Flowing() && AllOurs(runRouters.items)
      ensures !died ==> Everything() == old(Everything()) + if Known(g, nodes, pkt) then multiset{pkt} else multiset{}
      ensures Known(g, nodes, pkt) && !died ==>
                Passed(old(Contents()), old(Drops()), old(lost), old(delivered), r, k, pkt)
      ensures Known(g, nodes, pkt) && DestOf(nodes, pkt) != Node(r.id) ==> k < |links| == |old(Queues())|
      ensures Queues() == if Known(g, nodes, pkt) && DestOf(nodes, pkt) != Node(r.id) then
                            Joined(old(Queues()), k, pkt, now)
                          else old(Queues())
      ensures Known(g, nodes, pkt) && !died ==> Work() <= old(Work()) + HopsLeft(g, nodes, r.id, pkt)
      ensures OnlyFrom(Owners(), old(Queues()), Queues(), old(runRouters.items), runRouters.items)
      ensures DestOf(nodes, pkt).Node? && !Known(g, nodes, pkt) && DestOf(nodes, pkt).id != r.id ==> died
      ensures died ==> DestOf(nodes, pkt).Node? && (!Known(g, nodes, pkt) || TooSlow())
    {
      hide Static, Flowing, Work, HopsLeft, Everything, Contents, Drops, Queues, Owners, Still, PutOn, Passed, Has,
           AllOurs, Conserved, Known, OnlyFrom, Joined, Packets, TotalLength;
      died, k := r.Recv(this, pkt, now, runRouters);
      KnownMeans(pkt);
      if died && Known(g, nodes, pkt) { SlowLink(k); }
    }

    /** Takes one packet from outside at the router named in its header. */
    method Accept(at: nat, pkt: Packet, clock: Clock, runRouters: RunList) returns (died: bool, ghost k: nat)
      requires Static() && Flowing() && Conserved() && AllOurs(runRouters.items)
      modifies routers.Values`bytesSent, runRouters`items, links, this`delivered, this`lost, this`injected, clock`ticks
      ensures Flowing() && AllOurs(runRouters.items)
      ensures !died ==>
                Conserved() && injected == old(injected) + if at in routers && Known(g, nodes, pkt) then multiset{pkt}
                                                           else multiset{}
      ensures at in routers && Known(g, nodes, pkt) && !died ==>
                Passed(old(Contents()), old(Drops()), old(lost), old(delivered), routers[at], k, pkt)
      ensures at in routers && Known(g, nodes, pkt) && DestOf(nodes, pkt) != Node(at) ==> k < |links| == |old(Queues())|
      ensures Queues() == if at in routers && Known(g, nodes, pkt) && DestOf(nodes, pkt) != Node(at) then
                            Joined(old(Queues()), k, pkt, clock.Shown(old(clock.ticks)))
                          else old(Queues())
      ensures at in routers && DestOf(nodes, pkt).Node? && DestOf(nodes, pkt).id !in routers ==> died
      ensures died ==> at in routers && DestOf(nodes, pkt).Node? && (DestOf(nodes, pkt).id !in routers || TooSlow())
    {
      hide Static, Flowing, Work, HopsLeft, Everything, Contents, Drops, Queues, Owners, Still, PutOn, Passed, Has,
           AllOurs, Conserved, Known, OnlyFrom, Joined, TooSlow, DestOf, clock.Shown;
      AllHad();
      BooksAgree();
      died, k := false, 0;
      if at in routers {
        var now := clock.Now();
        died, k := Enter(routers[at], pkt, now, runRouters);
        KnownMeans(pkt);
        if !died { Admit(if Known(g, nodes, pkt) then multiset{pkt} else multiset{}); }
      }
    }

    lemma OwnersWake(items: seq<NSRouter>)
      requires Static() && forall j :: j in routers && j < n ==> routers[j] in items
      ensures forall k :: 0 <= k < |links| ==> links[k].owner in items
    {
      hide Routable;
      forall k | 0 <= k < |links| ensures links[k].owner in items {
        LinkAt(k);
      }
    }

    /** Every router joins the work list. */
    method WakeAll(runRouters: RunList)
      requires Static() && AllOurs(runRouters.items)
      modifies runRouters`items
      ensures AllOurs(runRouters.items) && forall k :: 0 <= k < |links| ==> links[k].owner in runRouters.items
    {
      hide Static;
      AllHad();
      for i := 0 to n
        invariant AllOurs(runRouters.items)
        invariant forall j :: j in routers && j < i ==> routers[j] in runRouters.items
      {
        if i in routers {
          runRouters.items := runRouters.items + [routers[i]];
        }
      }
      OwnersWake(runRouters.items);
    }

    lemma AllAwake(clock: Clock, t: nat, items: seq<NSRouter>)
      requires forall k :: 0 <= k < |links| ==> links[k].owner in items
      ensures Settled(Owners(), Queues(), clock, t, t, Forever, items)
    {
    }

    lemma HeadsBelow()
      requires Static()
      ensures |Heads()| == |links| && forall k :: 0 <= k < |links| ==> Heads()[k] < n
    {
      hide Routable;
    }

    lemma AllRest(clock: Clock, t0: nat, t1: nat, s: Sleep)
      requires Settled(Owners(), Queues(), clock, t0, t1, s, [])
      ensures Positive(s) && forall k :: 0 <= k < |links| ==> Rests(links[k].queue, clock, t0, t1, s)
    {
      hide Rests;
      LengthsOf();
    }

    lemma OneServed(q: seq<seq<Item>>, r: NSRouter, clock: Clock, t0: nat, t1: nat, t2: nat, s: Sleep, w: Sleep,
                    rest: seq<NSRouter>, items: seq<NSRouter>)
      requires Static() && t0 <= t1 <= t2 && Settled(Owners(), q, clock, t0, t1, s, [r] + rest)
      requires OthersKept(Owners(), q, Queues(), r, rest, items)
      requires Served(Owners(), Heads(), Queues(), r, n, clock, t1, t2, w, rest, items)
      ensures Settled(Owners(), Queues(), clock, t0, t2, Sooner(s, w), items)
    {
      hide Static, Settled, Served, OthersKept, Sooner;
      HeadsBelow();
      SettledStep(Owners(), Heads(), q, Queues(), r, n, clock, t0, t1, t2, s, w, rest, items);
    }

    /** Runs the first router on the list. */
    method RunFirst(clock: Clock, runRouters: RunList, sleep: Sleep, ghost t0: nat) returns (died: bool, less: Sleep)
      requires Static() && Flowing() && AllOurs(runRouters.items) && runRouters.items != [] && t0 <= clock.ticks
      requires Settled(Owners(), Queues(), clock, t0, clock.ticks, sleep, runRouters.items)
      modifies routers.Values`bytesSent, runRouters`items, links, this`delivered, this`lost, clock`ticks
      ensures Flowing() && AllOurs(runRouters.items) && (died ==> TooSlow())
      ensures !died ==>
                && Everything() == old(Everything()) && t0 <= clock.ticks
                && (Work() < old(Work())
                    || (Work() == old(Work()) && |runRouters.items| < |old(runRouters.items)|))
                && Settled(Owners(), Queues(), clock, t0, clock.ticks, less, runRouters.items)
    {
      hide Static, Flowing, Everything, Work, Conserved, Queues, Owners, Heads, Settled, Served, OthersKept, Sooner,
           TooSlow;
      var router := runRouters.items[0];
      ghost var q, rest, t1 := Queues(), runRouters.items[1..], clock.ticks;
      assert runRouters.items == [router] + rest;
      runRouters.items := runRouters.items[1..];
      var wait;
      died, wait := router.Run(this, clock, runRouters);
      less := Sooner(sleep, wait);
      if !died { OneServed(q, router, clock, t0, t1, clock.ticks, sleep, wait, rest, runRouters.items); }
    }

    /** Runs routers until none is left to run, although every forwarded packet puts a router back on the
        list: each packet that moves is one link nearer to its destination.  Afterwards no link has a packet that was
        due at its last reading of the clock, and the sleep ends before the next one is. */
    method Drain(clock: Clock, runRouters: RunList) returns (died: bool, sleep: Sleep)
      requires Static() && Flowing() && Conserved() && AllOurs(runRouters.items)
      modifies routers.Values`bytesSent, runRouters`items, links, this`delivered, this`lost, clock`ticks
      ensures Flowing() && (died ==> TooSlow())
      ensures !died ==> Conserved() && runRouters.items == [] && Work() <= old(Work())
      ensures !died ==>
                Positive(sleep) && forall k :: 0 <= k < |links| ==>
                  Rests(links[k].queue, clock, old(clock.ticks), clock.ticks, sleep)
    {
      hide Static, Flowing, Everything, Work, Conserved, Queues, Owners, Settled, Rests, TooSlow;
      died, sleep := false, Forever;
      ghost var t0 := clock.ticks;
      BooksAgree();
      WakeAll(runRouters);
      AllAwake(clock, t0, runRouters.items);
      while runRouters.items != []
        invariant Flowing() && AllOurs(runRouters.items) && !died && t0 <= clock.ticks
        invariant Everything() == old(Everything()) && Work() <= old(Work())
        invariant Settled(Owners(), Queues(), clock, t0, clock.ticks, sleep, runRouters.items)
        decreases Work(), |runRouters.items|
      {
        died, sleep := RunFirst(clock, runRouters, sleep, t0);
        if died { return; }
      }
      AllRest(clock, t0, clock.ticks, sleep);
      Booked();
    }
  }
}
