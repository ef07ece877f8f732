// show_graph: the same search with a cut on the breadth of every node, and the stream of
// nodes and edges it writes.
module ShowGraph {
  import opened Wrappers
  import opened ObjectGraph

  // The statements written per object: its red start mark, its label, an edge, and the mark
  // on a node whose neighbours were cut.  Colours are not part of the model.
  datatype Stmt = Start(id: Id) | Label(id: Id) | Edge(source: Id, target: Id) | Cut(id: Id)

  // isModule objects are drawn but not expanded; swap is swap_source_target.
  datatype Drawing = Drawing(g: Graph, isModule: Id -> bool, maxDepth: int, tooMany: int, swap: bool)

  // How many neighbours are drawn before the inner loop breaks: the test comes after the
  // first one, so at least one.
  function Breadth(d: Drawing): nat
    ensures Breadth(d) >= 1
  {
    if d.tooMany < 1 then 1 else d.tooMany
  }

  function Take(n: nat, s: seq<Id>): seq<Id> {
    if |s| <= n then s else s[..n]
  }

  function Drawn(d: Drawing, v: Id): seq<Id> {
    Take(Breadth(d), Usable(d.g, d.g.edges(v)))
  }

  function Neighbourhood(d: Drawing): Plan {
    Plan(d.g.objects, v => if d.isModule(v) then [] else Drawn(d, v), DepthBound(d.maxDepth))
  }

  function EdgeTo(d: Drawing, v: Id, w: Id): Stmt {
    if d.swap then Edge(v, w) else Edge(w, v)
  }

  function Edges(d: Drawing, v: Id, ws: seq<Id>): seq<Stmt> {
    if ws == [] then [] else Edges(d, v, ws[..|ws| - 1]) + [EdgeTo(d, v, ws[|ws| - 1])]
  }

  function Starts(objs: seq<Id>): seq<Stmt> {
    if objs == [] then [] else Starts(objs[..|objs| - 1]) + [Start(objs[|objs| - 1])]
  }

  lemma EdgesSnoc(d: Drawing, v: Id, ws: seq<Id>, w: Id)
    ensures Edges(d, v, ws + [w]) == Edges(d, v, ws) + [EdgeTo(d, v, w)]
  {
    assert (ws + [w])[..|ws|] == ws;
  }

  // Everything written while one object is visited at a given depth.
  function Block(d: Drawing, v: Id, depth: nat): seq<Stmt> {
    [Label(v)] +
    if d.isModule(v) || depth >= d.maxDepth then []
    else Edges(d, v, Drawn(d, v)) +
         if |Usable(d.g, d.g.edges(v))| >= Breadth(d) then [Cut(v)] else []
  }

  function Blocks(d: Drawing, depth: map<Id, nat>, vs: seq<Id>): seq<Stmt>
    requires forall v | v in vs :: v in depth
  {
    if vs == [] then []
    else Blocks(d, depth, vs[..|vs| - 1]) + Block(d, vs[|vs| - 1], depth[vs[|vs| - 1]])
  }

  lemma {:induction false} BlocksExtend(d: Drawing, depth0: map<Id, nat>, depth: map<Id, nat>, vs: seq<Id>)
    requires forall v | v in vs :: v in depth0 && v in depth && depth[v] == depth0[v]
    ensures Blocks(d, depth, vs) == Blocks(d, depth0, vs)
  {
    if vs != [] {
      BlocksExtend(d, depth0, depth, vs[..|vs| - 1]);
    }
  }

  lemma NeighbourhoodConfined(d: Drawing)
    requires Closed(d.g)
    ensures Confined(Neighbourhood(d))
  {
    var p := Neighbourhood(d);
    forall v, w | v in p.objects && w in p.steps(v) ensures w in p.objects {
      UsableMembers(d.g, d.g.edges(v));
    }
  }

  // ---------------------------------------------------------------- the program

  // One neighbour of the target: its edge, and its place in the queue if it is new.
  method DrawNeighbour(d: Drawing, target: Id, source: Id, ghost s: Search, ghost ws: seq<Id>,
                       ghost parent0: map<Id, Id>, depth0: map<Id, nat>, queue0: seq<Id>, out0: seq<Stmt>)
    returns (depth: map<Id, nat>, queue: seq<Id>, out: seq<Stmt>, ghost parent: map<Id, Id>)
    requires target in s.depth && Search(depth0, parent0, queue0, s.done) == DiscoverAll(s, target, ws)
    requires out0 == Edges(d, target, ws)
    ensures Search(depth, parent, queue, s.done) == DiscoverAll(s, target, ws + [source])
    ensures out == Edges(d, target, ws + [source])
  {
    depth, queue, parent := depth0, queue0, parent0;
    var tdepth := depth[target];
    DiscoverAllSnoc(s, target, ws, source);
    EdgesSnoc(d, target, ws, source);
    out := out0 + [EdgeTo(d, target, source)];
    if source !in depth {
      depth := depth[source := tdepth + 1];
      queue := queue + [source];
      parent := parent[source := target];
    }
  }

  // The inner for loop, for a target that is expanded.
  method Expand(d: Drawing, target: Id, ghost s: Search, depth0: map<Id, nat>, queue0: seq<Id>)
    returns (depth: map<Id, nat>, queue: seq<Id>, out: seq<Stmt>, ghost parent: map<Id, Id>)
    requires target in s.depth && s == Search(depth0, s.parent, queue0, s.done)
    ensures Search(depth, parent, queue, s.done) == DiscoverAll(s, target, Drawn(d, target))
    ensures out == Edges(d, target, Drawn(d, target)) +
                   if |Usable(d.g, d.g.edges(target))| >= Breadth(d) then [Cut(target)] else []
  {
    depth, queue, out, parent := depth0, queue0, [], s.parent;
    var neighbours := d.g.edges(target);
    ghost var all := Usable(d.g, neighbours);
    ghost var ws: seq<Id> := [];
    var n := 0;
    for i := 0 to |neighbours|
      invariant ws == Usable(d.g, neighbours[..i]) && ws <= all && n == |ws| < Breadth(d)
      invariant Search(depth, parent, queue, s.done) == DiscoverAll(s, target, ws)
      invariant out == Edges(d, target, ws)
    {
      var source := neighbours[i];
      UsableNext(d.g, neighbours, i);
      if !d.g.usable(source) { continue; }
      depth, queue, out, parent := DrawNeighbour(d, target, source, s, ws, parent, depth, queue, out);
      ws := ws + [source];
      n := n + 1;
      if n >= d.tooMany {
        DrawnFull(d, target, ws);
        out := out + [Cut(target)];
        return;
      }
    }
    assert neighbours[..|neighbours|] == neighbours;
    assert out + [] == out;
  }

  lemma DrawnFull(d: Drawing, v: Id, ws: seq<Id>)
    requires ws <= Usable(d.g, d.g.edges(v)) && |ws| == Breadth(d)
    ensures Drawn(d, v) == ws && |Usable(d.g, d.g.edges(v))| >= Breadth(d)
  {
  }

  lemma {:induction false} UsableNext(g: Graph, s: seq<Id>, i: nat)
    requires i < |s|
    ensures Usable(g, s[..i + 1]) <= Usable(g, s)
    ensures Usable(g, s[..i + 1]) == if g.usable(s[i]) then Usable(g, s[..i]) + [s[i]] else Usable(g, s[..i])
  {
    UsablePrefix(g, s, i + 1);
    UsableSnoc(g, s[..i], s[i]);
    assert s[..i + 1] == s[..i] + [s[i]];
    assert Usable(g, s[..i]) + [] == Usable(g, s[..i]);
  }

  lemma {:induction false} UsablePrefix(g: Graph, s: seq<Id>, n: nat)
    requires n <= |s|
    ensures Usable(g, s[..n]) <= Usable(g, s)
    decreases |s| - n
  {
    if n == |s| {
      assert s[..n] == s;
    } else {
      UsablePrefix(g, s, n + 1);
      UsableSnoc(g, s[..n], s[n]);
      assert s[..n + 1] == s[..n] + [s[n]];
    }
  }

  // One turn of the outer loop: write the block of target and record its neighbours.
  method VisitOne(d: Drawing, target: Id, ghost s: Search, depth0: map<Id, nat>, queue0: seq<Id>)
    returns (depth: map<Id, nat>, queue: seq<Id>, out: seq<Stmt>, ghost parent: map<Id, Id>)
    requires s == Search(depth0, s.parent, queue0, s.done)
    requires queue0 != [] && target == queue0[0] && target in depth0
    ensures Search(depth, parent, queue, s.done + [target]) == Visit(Neighbourhood(d), s)
    ensures out == Block(d, target, depth0[target])
  {
    depth, queue, out, parent := depth0, queue0[1..], [Label(target)], s.parent;
    var tdepth := depth[target];
    if d.isModule(target) || tdepth >= d.maxDepth {
      return;
    }
    var written;
    depth, queue, written, parent := Expand(d, target, Pop(s), depth, queue);
    out := out + written;
  }

  // The first for loop: mark and queue the objects asked for.
  method QueueObjects(objs: seq<Id>) returns (depth: map<Id, nat>, queue: seq<Id>, out: seq<Stmt>)
    ensures Search(depth, map[], queue, []) == ObjectGraph.Start(objs, map[])
    ensures out == Starts(objs)
  {
    depth, queue, out := map[], [], [];
    for i := 0 to |objs|
      invariant queue == objs[..i] && out == Starts(objs[..i])
      invariant depth == map v | v in objs[..i] :: 0
    {
      assert objs[..i + 1][..i] == objs[..i] && objs[..i + 1] == objs[..i] + [objs[i]];
      out := out + [Start(objs[i])];
      depth := depth[objs[i] := 0];
      queue := queue + [objs[i]];
    }
    assert objs[..|objs|] == objs;
  }

  // Between two turns: the search is under way and what is written is the visited blocks.
  ghost predicate Underway(d: Drawing, objs: seq<Id>, s: Search, out: seq<Stmt>) {
    && Searching(Neighbourhood(d), objs, s)
    && (forall v | v in s.done :: v in s.depth)
    && out == Starts(objs) + Blocks(d, s.depth, s.done)
  }

  lemma DrawingGoesOn(d: Drawing, objs: seq<Id>, s: Search, out: seq<Stmt>)
    requires Closed(d.g) && Underway(d, objs, s, out) && s.queue != []
    ensures s.queue[0] in s.depth
    ensures var p := Neighbourhood(d);
            var r := Visit(p, s);
            && Underway(d, objs, r, out + Block(d, s.queue[0], s.depth[s.queue[0]]))
            && ToCome(p, r) < ToCome(p, s)
  {
    var p := Neighbourhood(d);
    assert s.queue[0] in s.queue;
    NeighbourhoodConfined(d);
    VisitKeeps(p, objs, s);
    VisitToCome(p, objs, s);
    OutGrows(d, objs, s, Visit(p, s), out, s.queue[0]);
  }

  lemma OutGrows(d: Drawing, objs: seq<Id>, s: Search, r: Search, out: seq<Stmt>, v: Id)
    requires v in s.depth && Extends(s, r) && r.done == s.done + [v]
    requires forall w | w in s.done :: w in s.depth
    requires out == Starts(objs) + Blocks(d, s.depth, s.done)
    ensures forall w | w in r.done :: w in r.depth
    ensures out + Block(d, v, s.depth[v]) == Starts(objs) + Blocks(d, r.depth, r.done)
  {
    assert forall w | w in s.done :: w in r.depth && r.depth[w] == s.depth[w];
    BlocksExtend(d, s.depth, r.depth, s.done);
    BlocksSnoc(d, r.depth, s.done, v);
    Regroup(Starts(objs), Blocks(d, s.depth, s.done), Block(d, v, s.depth[v]));
  }

  lemma Regroup(a: seq<Stmt>, b: seq<Stmt>, c: seq<Stmt>)
    ensures a + b + c == a + (b + c)
  {
  }

  lemma BlocksSnoc(d: Drawing, depth: map<Id, nat>, vs: seq<Id>, v: Id)
    requires v in depth && forall w | w in vs :: w in depth
    ensures Blocks(d, depth, vs + [v]) == Blocks(d, depth, vs) + Block(d, v, depth[v])
  {
    assert (vs + [v])[..|vs|] == vs;
  }

  ghost predicate Drawable(d: Drawing, objs: seq<Id>) {
    Closed(d.g) && forall v | v in objs :: v in d.g.objects
  }

  // The finished search behind the drawing of objs.
  ghost function Visits(d: Drawing, objs: seq<Id>): (s: Search)
    requires Drawable(d, objs)
    ensures Searching(Neighbourhood(d), objs, s) && s.queue == []
    ensures forall v | v in s.done :: v in s.depth
  {
    NeighbourhoodConfined(d);
    StartKeeps(Neighbourhood(d), objs, map[]);
    Finish(Neighbourhood(d), objs, ObjectGraph.Start(objs, map[]))
  }

  // The start marks, then one block per visited object in visiting order.
  ghost function Picture(d: Drawing, objs: seq<Id>): seq<Stmt>
    requires Drawable(d, objs)
  {
    var s := Visits(d, objs);
    Starts(objs) + Blocks(d, s.depth, s.done)
  }

  // show_graph
  method DrawGraph(d: Drawing, objs: seq<Id>) returns (out: seq<Stmt>, nodes: nat)
    requires Drawable(d, objs)
    ensures out == Picture(d, objs) && nodes == |Visits(d, objs).done|
  {
    NeighbourhoodConfined(d);
    StartKeeps(Neighbourhood(d), objs, map[]);
    var depth, queue;
    depth, queue, out := QueueObjects(objs);
    nodes := 0;
    ghost var s := Search(depth, map[], queue, []);
    while queue != []
      invariant s == Search(depth, s.parent, queue, s.done) && nodes == |s.done|
      invariant Underway(d, objs, s, out)
      invariant Finish(Neighbourhood(d), objs, s) == Finish(Neighbourhood(d), objs, ObjectGraph.Start(objs, map[]))
      decreases ToCome(Neighbourhood(d), s)
    {
      nodes := nodes + 1;
      var target := queue[0];
      DrawingGoesOn(d, objs, s, out);
      var written;
      ghost var parent;
      depth, queue, written, parent := VisitOne(d, target, s, depth, queue);
      s := Search(depth, parent, queue, s.done + [target]);
      out := out + written;
    }
  }

  // ---------------------------------------------------------- what the drawing contains

  function Geometric(m: nat, k: nat): nat {
    if k == 0 then 1 else 1 + m * Geometric(m, k - 1)
  }

  function Power(m: nat, k: nat): nat {
    if k == 0 then 1 else m * Power(m, k - 1)
  }

  // Geometric(m, k) is 1 + m + ... + m^k.
  lemma {:induction false} GeometricAddsPower(m: nat, k: nat)
    ensures Geometric(m, k + 1) == Geometric(m, k) + Power(m, k + 1)
  {
    if k > 0 {
      GeometricAddsPower(m, k - 1);
      assert m * (Geometric(m, k - 1) + Power(m, k)) == m * Geometric(m, k - 1) + m * Power(m, k);
    }
  }

  // What the queued objects can still lead to: a queued object k levels above the bound
  // accounts for itself and at most m subtrees one level down.
  function Potential(m: nat, bound: nat, depth: map<Id, nat>, queue: seq<Id>): nat
    requires forall v | v in queue :: v in depth
  {
    if queue == [] then 0
    else Potential(m, bound, depth, queue[..|queue| - 1]) + Share(m, bound, depth[queue[|queue| - 1]])
  }

  function Share(m: nat, bound: nat, depth: nat): nat {
    Geometric(m, if depth < bound then bound - depth else 0)
  }

  lemma {:induction false} PotentialHead(m: nat, bound: nat, depth: map<Id, nat>, queue: seq<Id>)
    requires queue != [] && forall v | v in queue :: v in depth
    ensures Potential(m, bound, depth, queue)
            == Share(m, bound, depth[queue[0]]) + Potential(m, bound, depth, queue[1..])
    decreases |queue|
  {
    var n := |queue| - 1;
    if n > 0 {
      PotentialHead(m, bound, depth, queue[..n]);
      assert queue[1..][..n - 1] == queue[..n][1..];
    }
  }

  lemma {:induction false} PotentialExtends(m: nat, bound: nat, depth0: map<Id, nat>, depth: map<Id, nat>,
                                            queue: seq<Id>)
    requires forall v | v in queue :: v in depth0 && v in depth && depth[v] == depth0[v]
    ensures Potential(m, bound, depth, queue) == Potential(m, bound, depth0, queue)
  {
    if queue != [] {
      PotentialExtends(m, bound, depth0, depth, queue[..|queue| - 1]);
    }
  }

  // Discovering one object adds its share, if it is new.
  lemma DiscoverPotential(m: nat, bound: nat, s: Search, target: Id, w: Id)
    requires target in s.depth && forall v | v in s.queue :: v in s.depth
    ensures var r := Discover(s, target, w);
            && (forall v | v in r.queue :: v in r.depth)
            && Potential(m, bound, r.depth, r.queue)
               <= Potential(m, bound, s.depth, s.queue) + Share(m, bound, s.depth[target] + 1)
  {
    var r := Discover(s, target, w);
    if w !in s.depth {
      PotentialExtends(m, bound, s.depth, r.depth, s.queue);
      assert r.queue[..|s.queue|] == s.queue;
    }
  }

  lemma OneShareMore(n: nat, share: nat)
    ensures (n + 1) * share == n * share + share
  {
  }

  lemma {:induction false} DiscoverAllPotential(m: nat, bound: nat, s: Search, target: Id, ws: seq<Id>)
    requires target in s.depth && forall v | v in s.queue :: v in s.depth
    ensures var r := DiscoverAll(s, target, ws);
            && (forall v | v in r.queue :: v in r.depth)
            && Potential(m, bound, r.depth, r.queue)
               <= Potential(m, bound, s.depth, s.queue) + |ws| * Share(m, bound, s.depth[target] + 1)
    decreases |ws|
  {
    if ws != [] {
      var n := |ws| - 1;
      DiscoverAllPotential(m, bound, s, target, ws[..n]);
      DiscoverPotential(m, bound, DiscoverAll(s, target, ws[..n]), target, ws[n]);
      OneShareMore(n, Share(m, bound, s.depth[target] + 1));
    }
  }

  lemma ShareSplits(n: nat, m: nat, bound: nat, depth: nat)
    requires n <= m && depth < bound
    ensures 1 + n * Share(m, bound, depth + 1) <= Share(m, bound, depth)
  {
    var share := Share(m, bound, depth + 1);
    assert (m - n) * share >= 0;
    assert m * share == n * share + (m - n) * share;
  }

  lemma VisitPotential(p: Plan, m: nat, s: Search)
    requires forall v :: |p.steps(v)| <= m
    requires s.queue != [] && forall v | v in s.queue :: v in s.depth
    ensures var r := Visit(p, s);
            && (forall v | v in r.queue :: v in r.depth)
            && 1 + Potential(m, p.bound, r.depth, r.queue) <= Potential(m, p.bound, s.depth, s.queue)
  {
    var target := s.queue[0];
    PotentialHead(m, p.bound, s.depth, s.queue);
    assert forall v | v in s.queue[1..] :: v in s.queue;
    if s.depth[target] < p.bound {
      var ws := p.steps(target);
      DiscoverAllPotential(m, p.bound, Pop(s), target, ws);
      ShareSplits(|ws|, m, p.bound, s.depth[target]);
    }
  }

  lemma {:induction false} FinishPotential(p: Plan, roots: seq<Id>, m: nat, s: Search)
    requires Confined(p) && Searching(p, roots, s) && forall v :: |p.steps(v)| <= m
    requires forall v | v in s.queue :: v in s.depth
    ensures |Finish(p, roots, s).done| <= |s.done| + Potential(m, p.bound, s.depth, s.queue)
    decreases ToCome(p, s)
  {
    if s.queue != [] {
      assert s.queue[0] in s.queue;
      VisitKeeps(p, roots, s);
      VisitToCome(p, roots, s);
      VisitPotential(p, m, s);
      FinishPotential(p, roots, m, Visit(p, s));
    }
  }

  lemma {:induction false} StartPotential(m: nat, bound: nat, depth: map<Id, nat>, queue: seq<Id>)
    requires forall v | v in queue :: v in depth && depth[v] == 0
    ensures Potential(m, bound, depth, queue) == |queue| * Geometric(m, bound)
  {
    if queue != [] {
      var n := |queue| - 1;
      StartPotential(m, bound, depth, queue[..n]);
      assert n * Geometric(m, bound) + Geometric(m, bound) == |queue| * Geometric(m, bound);
    }
  }

  // At most len(objs) * (1 + m + ... + m^max_depth) nodes are drawn.
  lemma NodeBound(d: Drawing, objs: seq<Id>)
    requires Drawable(d, objs)
    ensures |Visits(d, objs).done| <=
            |objs| * Geometric(if d.tooMany < 1 then 1 else d.tooMany, if d.maxDepth < 0 then 0 else d.maxDepth)
  {
    var p := Neighbourhood(d);
    var s0 := ObjectGraph.Start(objs, map[]);
    forall v ensures |p.steps(v)| <= Breadth(d) {
      assert p.steps(v) == if d.isModule(v) then [] else Drawn(d, v);
    }
    NeighbourhoodConfined(d);
    StartKeeps(p, objs, map[]);
    FinishPotential(p, objs, Breadth(d), s0);
    StartPotential(Breadth(d), DepthBound(d.maxDepth), s0.depth, s0.queue);
  }

  // An object is drawn exactly when cut neighbourhoods lead to it within the depth, and no
  // drawn object is deeper than the bound.
  lemma DrawnIffReached(d: Drawing, objs: seq<Id>, v: Id)
    requires Drawable(d, objs)
    ensures v in Visits(d, objs).done <==>
            exists c ::
              Chain(Neighbourhood(d).steps, c) && c[0] == v && c[|c| - 1] in objs && (|c| == 1 || |c| - 1 <= d.maxDepth)
    ensures v in Visits(d, objs).done ==>
              v in Visits(d, objs).depth && (Visits(d, objs).depth[v] == 0 || Visits(d, objs).depth[v] <= d.maxDepth)
  {
    var s := Visits(d, objs);
    VisitedIffReached(Neighbourhood(d), objs, s, v);
    if v in s.done { assert Hangs(Neighbourhood(d), objs, s, v); }
  }

  function Labels(out: seq<Stmt>, u: Id): nat {
    Count(out, Label(u))
  }

  lemma {:induction false} EdgesHaveNoLabel(d: Drawing, v: Id, ws: seq<Id>, u: Id)
    ensures Labels(Edges(d, v, ws), u) == 0
    decreases |ws|
  {
    if ws != [] { EdgesHaveNoLabel(d, v, ws[..|ws| - 1], u); }
  }

  lemma BlockLabels(d: Drawing, v: Id, depth: nat, u: Id)
    ensures Labels(Block(d, v, depth), u) == if u == v then 1 else 0
  {
    EdgesHaveNoLabel(d, v, Drawn(d, v), u);
    var marks := if |Usable(d.g, d.g.edges(v))| >= Breadth(d) then [Cut(v)] else [];
    CountAppend(Edges(d, v, Drawn(d, v)), marks, Label(u));
    var edges := if d.isModule(v) || depth >= d.maxDepth then [] else Edges(d, v, Drawn(d, v)) + marks;
    CountAppend([Label(v)], edges, Label(u));
  }

  lemma {:induction false} BlocksLabels(d: Drawing, depth: map<Id, nat>, vs: seq<Id>, u: Id)
    requires forall v | v in vs :: v in depth
    ensures Labels(Blocks(d, depth, vs), u) == Count(vs, u)
    decreases |vs|
  {
    if vs != [] {
      var front, v := vs[..|vs| - 1], vs[|vs| - 1];
      BlocksLabels(d, depth, front, u);
      BlockLabels(d, v, depth[v], u);
      CountAppend(Blocks(d, depth, front), Block(d, v, depth[v]), Label(u));
    }
  }

  lemma {:induction false} StartsLabels(objs: seq<Id>, u: Id)
    ensures Labels(Starts(objs), u) == 0
    decreases |objs|
  {
    if objs != [] { StartsLabels(objs[..|objs| - 1], u); }
  }

  // An object is visited once, or as often as it was asked for.
  lemma {:induction false} VisitCount(d: Drawing, objs: seq<Id>, u: Id)
    requires Drawable(d, objs) && u in Visits(d, objs).done
    ensures Count(Visits(d, objs).done, u) == if u in objs then Count(objs, u) else 1
  {
    var s0 := ObjectGraph.Start(objs, map[]);
    assert s0.done + s0.queue == objs;
    NeighbourhoodConfined(d);
    StartKeeps(Neighbourhood(d), objs, map[]);
    FinishCounted(Neighbourhood(d), objs, s0);
    var s := Visits(d, objs);
    assert s.done + s.queue == s.done;
  }

  // Every drawn object has exactly one label statement, unless it was asked for several
  // times: then it has as many.
  lemma {:induction false} LabelCount(d: Drawing, objs: seq<Id>, u: Id)
    requires Drawable(d, objs)
    ensures Labels(Picture(d, objs), u) ==
            if u !in Visits(d, objs).done then 0 else if u in objs then Count(objs, u) else 1
  {
    var s := Visits(d, objs);
    StartsLabels(objs, u);
    BlocksLabels(d, s.depth, s.done, u);
    CountAppend(Starts(objs), Blocks(d, s.depth, s.done), Label(u));
    CountPositive(s.done, u);
    if u in s.done { VisitCount(d, objs, u); }
  }

  // ------------------------------------------------------------ what is drawn, exactly

  // w is a neighbour of v that is not skipped, and fewer than too_many (but at least one) of
  // those come before it.
  ghost predicate FirstUsable(d: Drawing, v: Id, w: Id) {
    exists j :: 0 <= j < |d.g.edges(v)| && UsableAt(d, v, w, j)
  }

  ghost predicate UsableAt(d: Drawing, v: Id, w: Id, j: nat) {
    && j < |d.g.edges(v)| && d.g.edges(v)[j] == w && d.g.usable(w)
    && (var before := |Usable(d.g, d.g.edges(v)[..j])|; before == 0 || before < d.tooMany)
  }

  lemma {:induction false} UsablePlace(g: Graph, s: seq<Id>, k: nat) returns (j: nat)
    requires k < |Usable(g, s)|
    ensures j < |s| && s[j] == Usable(g, s)[k] && g.usable(s[j]) && |Usable(g, s[..j])| == k
  {
    if g.usable(s[0]) && k == 0 {
      j := 0;
    } else {
      var i := UsablePlace(g, s[1..], if g.usable(s[0]) then k - 1 else k);
      j := i + 1;
      assert s[..j][1..] == s[1..][..i];
    }
  }

  lemma DrawnExactly(d: Drawing, v: Id, w: Id)
    ensures w in Drawn(d, v) <==> FirstUsable(d, v, w)
  {
    var edges := d.g.edges(v);
    if w in Drawn(d, v) {
      var k :| 0 <= k < |Drawn(d, v)| && Drawn(d, v)[k] == w;
      var j := UsablePlace(d.g, edges, k);
      assert UsableAt(d, v, w, j);
    }
    forall j | 0 <= j < |edges| && UsableAt(d, v, w, j) ensures w in Drawn(d, v) {
      UsableNext(d.g, edges, j);
      var k := |Usable(d.g, edges[..j])|;
      assert Usable(d.g, edges[..j + 1])[k] == w;
      assert Drawn(d, v)[k] == w;
    }
  }

  // v was visited above the depth limit and is no module.
  ghost predicate Expanded(d: Drawing, objs: seq<Id>, v: Id)
    requires Drawable(d, objs)
  {
    var s := Visits(d, objs);
    v in s.done && s.depth[v] < d.maxDepth && !d.isModule(v)
  }

  lemma {:induction false} BlockWithin(d: Drawing, depth: map<Id, nat>, vs: seq<Id>, i: nat, x: Stmt)
    requires (forall v | v in vs :: v in depth) && i < |vs| && x in Block(d, vs[i], depth[vs[i]])
    ensures x in Blocks(d, depth, vs)
    decreases |vs|
  {
    if i < |vs| - 1 { BlockWithin(d, depth, vs[..|vs| - 1], i, x); }
  }

  lemma {:induction false} BlockBehind(d: Drawing, depth: map<Id, nat>, vs: seq<Id>, x: Stmt) returns (v: Id)
    requires (forall v | v in vs :: v in depth) && x in Blocks(d, depth, vs)
    ensures v in vs && x in Block(d, v, depth[v])
    decreases |vs|
  {
    var n := |vs| - 1;
    v := vs[n];
    if x !in Block(d, v, depth[v]) { v := BlockBehind(d, depth, vs[..n], x); }
  }

  lemma {:induction false} EdgeAmong(d: Drawing, v: Id, ws: seq<Id>, a: Id, b: Id)
    ensures Edge(a, b) in Edges(d, v, ws) <==> if d.swap then a == v && b in ws else b == v && a in ws
    ensures forall x | x in Edges(d, v, ws) :: x.Edge?
    decreases |ws|
  {
    if ws != [] {
      var n := |ws| - 1;
      EdgeAmong(d, v, ws[..n], a, b);
      assert ws == ws[..n] + [ws[n]];
    }
  }

  // Whether v is expanded when it is visited at the given depth.
  predicate Opens(d: Drawing, v: Id, depth: nat) {
    depth < d.maxDepth && !d.isModule(v)
  }

  lemma EdgeInBlock(d: Drawing, v: Id, depth: nat, a: Id, b: Id)
    ensures Edge(a, b) in Block(d, v, depth) <==>
            Opens(d, v, depth) && if d.swap then a == v && b in Drawn(d, v) else b == v && a in Drawn(d, v)
  {
    EdgeAmong(d, v, Drawn(d, v), a, b);
  }

  lemma MarkInBlock(d: Drawing, v: Id, depth: nat, u: Id)
    ensures Cut(u) in Block(d, v, depth) <==>
            u == v && Opens(d, v, depth) && |Usable(d.g, d.g.edges(v))| >= Breadth(d)
    ensures Stmt.Start(u) !in Block(d, v, depth)
  {
    EdgeAmong(d, v, Drawn(d, v), u, u);
  }

  // A statement other than a start mark comes from the block of a visited object.
  lemma InPicture(d: Drawing, objs: seq<Id>, x: Stmt)
    requires Drawable(d, objs)
    ensures var s := Visits(d, objs);
            x in Picture(d, objs) <==>
            (x.Start? && x.id in objs) || exists v :: v in s.done && x in Block(d, v, s.depth[v])
  {
    var s := Visits(d, objs);
    InStarts(objs);
    if x in Blocks(d, s.depth, s.done) { var v := BlockBehind(d, s.depth, s.done, x); }
    forall i | 0 <= i < |s.done| && x in Block(d, s.done[i], s.depth[s.done[i]]) ensures x in Picture(d, objs) {
      BlockWithin(d, s.depth, s.done, i, x);
    }
  }

  lemma {:induction false} InStarts(objs: seq<Id>)
    ensures forall x: Stmt :: x in Starts(objs) <==> x.Start? && x.id in objs
  {
    if objs != [] {
      InStarts(objs[..|objs| - 1]);
      assert objs == objs[..|objs| - 1] + [objs[|objs| - 1]];
    }
  }

  // An edge is drawn exactly between an expanded object and one of its first too_many (but at
  // least one) usable neighbours: from the object when the drawing follows what objects refer
  // to, to the object when it follows what refers to them.
  lemma EdgesExactly(d: Drawing, objs: seq<Id>, a: Id, b: Id)
    requires Drawable(d, objs)
    ensures Edge(a, b) in Picture(d, objs) <==>
            if d.swap then Expanded(d, objs, a) && FirstUsable(d, a, b)
            else Expanded(d, objs, b) && FirstUsable(d, b, a)
  {
    var s := Visits(d, objs);
    var v, w := if d.swap then a else b, if d.swap then b else a;
    InPicture(d, objs, Edge(a, b));
    DrawnExactly(d, v, w);
    forall u | u in s.done ensures Edge(a, b) in Block(d, u, s.depth[u]) ==> u == v {
      EdgeInBlock(d, u, s.depth[u], a, b);
    }
    if v in s.done { EdgeInBlock(d, v, s.depth[v], a, b); }
  }

  // A node is marked as cut exactly when it was expanded and has at least that many usable
  // neighbours, and marked as a start exactly when it was asked for.
  lemma MarksExactly(d: Drawing, objs: seq<Id>, v: Id)
    requires Drawable(d, objs)
    ensures Cut(v) in Picture(d, objs) <==>
            Expanded(d, objs, v) && (var n := |Usable(d.g, d.g.edges(v))|; 1 <= n && d.tooMany <= n)
    ensures Stmt.Start(v) in Picture(d, objs) <==> v in objs
  {
    var s := Visits(d, objs);
    InPicture(d, objs, Cut(v));
    InPicture(d, objs, Stmt.Start(v));
    forall u | u in s.done
      ensures (Cut(v) in Block(d, u, s.depth[u]) ==> u == v) && Stmt.Start(v) !in Block(d, u, s.depth[u])
    {
      MarkInBlock(d, u, s.depth[u], v);
    }
    if v in s.done { MarkInBlock(d, v, s.depth[v], v); }
  }

  lemma {:induction false} NeighbourDrawn(d: Drawing, objs: seq<Id>, v: Id, w: Id)
    requires Drawable(d, objs) && v in Visits(d, objs).done && !d.isModule(v) && w in Drawn(d, v)
    requires Visits(d, objs).depth[v] < d.maxDepth
    ensures w in Visits(d, objs).done
  {
    var p, s := Neighbourhood(d), Visits(d, objs);
    assert StepsRecorded(p, s.depth, v);
    assert w in p.steps(v);
    assert w in s.depth;
  }

  lemma {:induction false} LabelDrawn(d: Drawing, objs: seq<Id>, v: Id)
    requires Drawable(d, objs) && v in Visits(d, objs).done
    ensures Label(v) in Picture(d, objs)
  {
    LabelCount(d, objs, v);
    CountPositive(objs, v);
    CountPositive(Picture(d, objs), Label(v));
  }

  // Both ends of every drawn edge are drawn, so each of them has its label.
  lemma {:induction false} EdgesClosed(d: Drawing, objs: seq<Id>, a: Id, b: Id)
    requires Drawable(d, objs) && Edge(a, b) in Picture(d, objs)
    ensures a in Visits(d, objs).done && b in Visits(d, objs).done
    ensures Label(a) in Picture(d, objs) && Label(b) in Picture(d, objs)
  {
    EdgesExactly(d, objs, a, b);
    var v, w := if d.swap then a else b, if d.swap then b else a;
    DrawnExactly(d, v, w);
    NeighbourDrawn(d, objs, v, w);
    LabelDrawn(d, objs, v);
    LabelDrawn(d, objs, w);
  }
}
