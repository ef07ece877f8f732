// The reference graph the searches of objgraph walk, and the breadth-first search both share,
// as a function of its state.  The imperative searches are proved to follow it step by step.
module ObjectGraph {
  import opened Wrappers

  // id(obj)
  type Id = nat

  // A fixed heap.  edges is gc.get_referrers or gc.get_referents; usable is false for
  // frames, for ignored ids and for what the caller's filter rejects.
  datatype Graph = Graph(objects: set<Id>, edges: Id -> seq<Id>, usable: Id -> bool)

  ghost predicate Closed(g: Graph) {
    forall v, w | v in g.objects && w in g.edges(v) :: w in g.objects
  }

  // max_depth counts links; below zero the roots themselves are still looked at.
  function DepthBound(maxDepth: int): nat {
    if maxDepth < 0 then 0 else maxDepth
  }

  function Usable(g: Graph, s: seq<Id>): seq<Id> {
    if s == [] then []
    else (if g.usable(s[0]) then [s[0]] else []) + Usable(g, s[1..])
  }

  lemma {:induction false} UsableMembers(g: Graph, s: seq<Id>)
    ensures forall w :: w in Usable(g, s) <==> w in s && g.usable(w)
  {
    if s != [] {
      UsableMembers(g, s[1..]);
      assert s == [s[0]] + s[1..];
    }
  }

  lemma {:induction false} UsableSnoc(g: Graph, s: seq<Id>, w: Id)
    ensures Usable(g, s + [w]) == Usable(g, s) + if g.usable(w) then [w] else []
  {
    if s != [] {
      assert (s + [w])[1..] == s[1..] + [w];
      UsableSnoc(g, s[1..], w);
    }
  }

  // ------------------------------------------------------------------ the search

  // Which steps a search takes from an object, and from what depth on it takes none.
  datatype Plan = Plan(objects: set<Id>, steps: Id -> seq<Id>, bound: nat)

  ghost predicate Confined(p: Plan) {
    forall v, w | v in p.objects && w in p.steps(v) :: w in p.objects
  }

  datatype Search = Search(depth: map<Id, nat>, parent: map<Id, Id>, queue: seq<Id>, done: seq<Id>)

  // parent is whatever the caller records for the roots themselves.
  function Start(roots: seq<Id>, parent: map<Id, Id>): Search {
    Search(map v | v in roots :: 0, parent, roots, [])
  }

  function Discover(s: Search, target: Id, w: Id): Search
    requires target in s.depth
  {
    if w in s.depth then s
    else Search(s.depth[w := s.depth[target] + 1], s.parent[w := target], s.queue + [w], s.done)
  }

  function DiscoverAll(s: Search, target: Id, ws: seq<Id>): (r: Search)
    requires target in s.depth
    ensures target in r.depth && r.depth[target] == s.depth[target]
    decreases |ws|
  {
    if ws == [] then s
    else
      var r := DiscoverAll(s, target, ws[..|ws| - 1]);
      Discover(r, target, ws[|ws| - 1])
  }

  lemma DiscoverAllSnoc(s: Search, target: Id, ws: seq<Id>, w: Id)
    requires target in s.depth
    ensures DiscoverAll(s, target, ws + [w]) == Discover(DiscoverAll(s, target, ws), target, w)
  {
    assert (ws + [w])[..|ws|] == ws;
  }

  function Pop(s: Search): Search
    requires s.queue != []
  {
    s.(queue := s.queue[1..], done := s.done + [s.queue[0]])
  }

  function StepsFrom(p: Plan, depth: map<Id, nat>, v: Id): seq<Id>
    requires v in depth
  {
    if depth[v] < p.bound then p.steps(v) else []
  }

  function Visit(p: Plan, s: Search): Search
    requires s.queue != [] && s.queue[0] in s.depth
  {
    DiscoverAll(Pop(s), s.queue[0], StepsFrom(p, s.depth, s.queue[0]))
  }

  // ------------------------------------------------------- what the search maintains

  ghost predicate Recorded(s: Search) {
    forall v :: v in s.depth <==> v in s.queue || v in s.done
  }

  // Nothing done is deeper than level, what waits is at most one deeper, and in order.
  ghost predicate Leveled(s: Search, level: nat) {
    && (forall v | v in s.done :: v in s.depth && s.depth[v] <= level)
    && (forall v | v in s.queue :: v in s.depth && level <= s.depth[v] <= level + 1)
    && (forall i, j | 0 <= i < j < |s.queue| :: s.depth[s.queue[i]] <= s.depth[s.queue[j]])
  }

  // Everything recorded hangs off a root by parent links that go one level up each.
  ghost predicate Hangs(p: Plan, roots: seq<Id>, s: Search, v: Id) {
    && v in s.depth && v in p.objects && s.depth[v] <= p.bound
    && if v in roots then s.depth[v] == 0
       else
         && v in s.parent && s.parent[v] in s.depth
         && s.depth[v] == s.depth[s.parent[v]] + 1 && v in p.steps(s.parent[v])
  }

  ghost predicate Rooted(p: Plan, roots: seq<Id>, s: Search) {
    && (forall v | v in roots :: v in s.depth)
    && (forall v {:trigger Hangs(p, roots, s, v)} :: v in s.depth ==> Hangs(p, roots, s, v))
  }

  ghost predicate StepsRecorded(p: Plan, depth: map<Id, nat>, v: Id) {
    v in depth && (depth[v] < p.bound ==> forall w | w in p.steps(v) :: w in depth && depth[w] <= depth[v] + 1)
  }

  ghost predicate Expanded(p: Plan, s: Search) {
    forall v {:trigger StepsRecorded(p, s.depth, v)} :: v in s.done ==> StepsRecorded(p, s.depth, v)
  }

  ghost predicate Searching(p: Plan, roots: seq<Id>, s: Search) {
    && Recorded(s) && Rooted(p, roots, s) && Expanded(p, s)
    && (s.queue != [] ==> Leveled(s, s.depth[s.queue[0]]))
  }

  // Depths and parents, once given, stay.
  ghost predicate Extends(s: Search, r: Search) {
    forall v | v in s.depth ::
      && v in r.depth && r.depth[v] == s.depth[v]
      && (v in s.parent ==> v in r.parent && r.parent[v] == s.parent[v])
  }

  lemma DiscoverKeeps(p: Plan, roots: seq<Id>, s: Search, target: Id, w: Id)
    requires target in s.depth && s.depth[target] < p.bound && w in p.steps(target) && w in p.objects
    requires Recorded(s) && Rooted(p, roots, s)
    ensures var r := Discover(s, target, w);
            Recorded(r) && Rooted(p, roots, r) && Extends(s, r)
  {
    var r := Discover(s, target, w);
    forall v | v in r.depth ensures Hangs(p, roots, r, v) {
      if v in s.depth { assert Hangs(p, roots, s, v); }
    }
  }

  lemma DiscoverLeveled(s: Search, target: Id, w: Id)
    requires target in s.depth && Leveled(s, s.depth[target]) && Recorded(s)
    ensures var r := Discover(s, target, w);
            && Leveled(r, s.depth[target])
            && w in r.depth && r.depth[w] <= s.depth[target] + 1
  {
    var r := Discover(s, target, w);
    assert forall v | v in s.queue :: r.depth[v] == s.depth[v];
    assert forall v | v in s.done :: r.depth[v] == s.depth[v];
    if w !in s.depth {
      var n := |s.queue|;
      forall i, j | 0 <= i < j < |r.queue| ensures r.depth[r.queue[i]] <= r.depth[r.queue[j]] {
        assert s.queue[i] in s.queue;
        if j < n { assert s.queue[j] in s.queue; }
      }
    }
  }

  // What holds of r when the objects ws have been discovered from target in s.
  ghost predicate Discovered(p: Plan, roots: seq<Id>, s: Search, target: Id, ws: seq<Id>, r: Search) {
    && target in s.depth
    && Recorded(r) && Rooted(p, roots, r) && Leveled(r, s.depth[target]) && Extends(s, r)
    && r.done == s.done
    && forall w | w in ws :: w in r.depth && r.depth[w] <= s.depth[target] + 1
  }

  lemma DiscoveredSnoc(p: Plan, roots: seq<Id>, s: Search, target: Id, ws: seq<Id>, q: Search, w: Id)
    requires Discovered(p, roots, s, target, ws, q) && s.depth[target] < p.bound
    requires w in p.steps(target) && w in p.objects
    ensures target in q.depth && Discovered(p, roots, s, target, ws + [w], Discover(q, target, w))
  {
    DiscoverKeeps(p, roots, q, target, w);
    DiscoverLeveled(q, target, w);
  }

  lemma {:induction false} DiscoverAllKeeps(p: Plan, roots: seq<Id>, s: Search, target: Id, ws: seq<Id>)
    requires target in s.depth && s.depth[target] < p.bound
    requires forall w | w in ws :: w in p.steps(target) && w in p.objects
    requires Recorded(s) && Rooted(p, roots, s) && Leveled(s, s.depth[target])
    ensures Discovered(p, roots, s, target, ws, DiscoverAll(s, target, ws))
    decreases |ws|
  {
    if ws != [] {
      var n := |ws| - 1;
      DiscoverAllKeeps(p, roots, s, target, ws[..n]);
      DiscoveredSnoc(p, roots, s, target, ws[..n], DiscoverAll(s, target, ws[..n]), ws[n]);
      assert ws[..n] + [ws[n]] == ws;
    }
  }

  lemma PopKeeps(p: Plan, roots: seq<Id>, s: Search)
    requires Searching(p, roots, s) && s.queue != []
    ensures var r := Pop(s);
            && Recorded(r) && Rooted(p, roots, r) && Leveled(r, s.depth[s.queue[0]])
            && s.queue[0] in s.depth && s.queue[0] in p.objects
  {
    var r := Pop(s);
    assert s.queue == [s.queue[0]] + s.queue[1..];
    assert Hangs(p, roots, s, s.queue[0]);
    forall v | v in r.depth ensures Hangs(p, roots, r, v) {
      assert Hangs(p, roots, s, v);
    }
  }

  lemma ExpandedGrows(p: Plan, s: Search, r: Search, target: Id)
    requires Expanded(p, s) && Extends(s, r) && r.done == s.done + [target]
    requires StepsRecorded(p, r.depth, target)
    ensures Expanded(p, r)
  {
    forall v | v in r.done ensures StepsRecorded(p, r.depth, v) {
      if v in s.done { assert StepsRecorded(p, s.depth, v); }
    }
  }

  lemma VisitKeeps(p: Plan, roots: seq<Id>, s: Search)
    requires Confined(p) && Searching(p, roots, s) && s.queue != [] && s.queue[0] in s.depth
    ensures Searching(p, roots, Visit(p, s)) && Visit(p, s).done == s.done + [s.queue[0]]
    ensures Extends(s, Visit(p, s))
  {
    PopKeeps(p, roots, s);
    var target := s.queue[0];
    var r := Visit(p, s);
    if s.depth[target] < p.bound {
      DiscoverAllKeeps(p, roots, Pop(s), target, p.steps(target));
    }
    assert StepsRecorded(p, r.depth, target);
    ExpandedGrows(p, s, r, target);
    if r.queue != [] {
      Relevel(r, s.depth[target]);
    }
  }

  lemma Relevel(s: Search, level: nat)
    requires s.queue != [] && Leveled(s, level)
    ensures s.queue[0] in s.depth && Leveled(s, s.depth[s.queue[0]])
  {
    var first := s.queue[0];
    assert first in s.queue;
    forall v | v in s.queue ensures s.depth[first] <= s.depth[v] {
      var i :| 0 <= i < |s.queue| && s.queue[i] == v;
    }
  }

  lemma StartKeeps(p: Plan, roots: seq<Id>, parent: map<Id, Id>)
    requires forall v | v in roots :: v in p.objects
    ensures Searching(p, roots, Start(roots, parent))
  {
    var s := Start(roots, parent);
    forall v | v in s.depth ensures Hangs(p, roots, s, v) {}
  }

  // Each visit takes one object off what is still to come, so the search ends.
  ghost function ToCome(p: Plan, s: Search): nat {
    |p.objects - s.depth.Keys| + |s.queue|
  }

  lemma {:induction false} DiscoverAllToCome(p: Plan, s: Search, target: Id, ws: seq<Id>)
    requires target in s.depth && forall w | w in ws :: w in p.objects
    ensures ToCome(p, DiscoverAll(s, target, ws)) == ToCome(p, s)
    decreases |ws|
  {
    if ws != [] {
      var n := |ws| - 1;
      DiscoverAllToCome(p, s, target, ws[..n]);
      var q := DiscoverAll(s, target, ws[..n]);
      var r := Discover(q, target, ws[n]);
      if ws[n] !in q.depth {
        assert p.objects - r.depth.Keys == (p.objects - q.depth.Keys) - {ws[n]};
      }
    }
  }

  lemma VisitToCome(p: Plan, roots: seq<Id>, s: Search)
    requires Confined(p) && Searching(p, roots, s) && s.queue != [] && s.queue[0] in s.depth
    ensures ToCome(p, Visit(p, s)) < ToCome(p, s)
  {
    PopKeeps(p, roots, s);
    DiscoverAllToCome(p, Pop(s), s.queue[0], StepsFrom(p, s.depth, s.queue[0]));
  }

  // --------------------------------------------------------------- chains and depths

  // c[0] -> ... -> c[last] read backwards: each element is a step away from the next one.
  ghost predicate Chain(steps: Id -> seq<Id>, c: seq<Id>) {
    c != [] && forall i, j | 0 <= i < j < |c| && j == i + 1 :: c[i] in steps(c[j])
  }

  // Breadth-first completeness: once everything less than d deep is done, whatever a chain
  // of at most d links reaches from a root is recorded, no deeper than the chain is long.
  lemma {:induction false} ChainRecorded(p: Plan, roots: seq<Id>, s: Search, d: nat, c: seq<Id>)
    requires Rooted(p, roots, s) && Expanded(p, s) && d <= p.bound
    requires forall v | v in s.depth && s.depth[v] < d :: v in s.done
    requires Chain(p.steps, c) && |c| <= d + 1 && c[|c| - 1] in roots
    ensures c[0] in s.depth && s.depth[c[0]] < |c|
    decreases |c|
  {
    if |c| == 1 {
      assert Hangs(p, roots, s, c[0]);
    } else {
      var rest := c[1..];
      assert Chain(p.steps, rest);
      ChainRecorded(p, roots, s, d, rest);
      assert rest[0] == c[1];
      assert StepsRecorded(p, s.depth, rest[0]);
    }
  }

  // The other direction: what is recorded is reached by a chain as long as it is deep.
  lemma {:induction false} RecordedHasChain(p: Plan, roots: seq<Id>, s: Search, v: Id) returns (c: seq<Id>)
    requires Rooted(p, roots, s) && v in s.depth
    ensures Chain(p.steps, c) && c[0] == v && c[|c| - 1] in roots && |c| == s.depth[v] + 1 <= p.bound + 1
    decreases s.depth[v]
  {
    assert Hangs(p, roots, s, v);
    if v in roots {
      c := [v];
    } else {
      c := RecordedHasChain(p, roots, s, s.parent[v]);
      c := [v] + c;
    }
  }

  // ---------------------------------------------------------------- complete searches

  ghost function Finish(p: Plan, roots: seq<Id>, s: Search): (r: Search)
    requires Confined(p) && Searching(p, roots, s)
    ensures Searching(p, roots, r) && r.queue == []
    decreases ToCome(p, s)
  {
    if s.queue == [] then s
    else
      assert s.queue[0] in s.queue;
      VisitKeeps(p, roots, s);
      VisitToCome(p, roots, s);
      Finish(p, roots, Visit(p, s))
  }

  // Once nothing waits, an object was visited exactly when a chain of at most bound links
  // leads to it from a root.
  lemma VisitedIffReached(p: Plan, roots: seq<Id>, s: Search, v: Id)
    requires Searching(p, roots, s) && s.queue == []
    ensures v in s.done <==>
            exists c :: Chain(p.steps, c) && c[0] == v && c[|c| - 1] in roots && |c| - 1 <= p.bound
  {
    if v in s.done {
      var c := RecordedHasChain(p, roots, s, v);
    }
    forall c | Chain(p.steps, c) && c[0] == v && c[|c| - 1] in roots && |c| - 1 <= p.bound
      ensures v in s.done
    {
      ChainRecorded(p, roots, s, p.bound, c);
    }
  }

  // The depth of a visited object is its distance from the roots.
  lemma DepthIsDistance(p: Plan, roots: seq<Id>, s: Search, c: seq<Id>)
    requires Searching(p, roots, s) && s.queue == []
    requires Chain(p.steps, c) && c[|c| - 1] in roots && c[0] in s.done
    ensures c[0] in s.depth && s.depth[c[0]] <= |c| - 1
  {
    assert Hangs(p, roots, s, c[0]);
    if |c| - 1 <= p.bound {
      ChainRecorded(p, roots, s, p.bound, c);
    }
  }

  // How often an object is queued or done: as often as it is a root, otherwise once.
  ghost predicate Counted(roots: seq<Id>, s: Search) {
    forall v | v in s.depth ::
      Count(s.done + s.queue, v) == if v in roots then Count(roots, v) else 1
  }

  lemma {:induction false} DiscoverAllCounted(p: Plan, roots: seq<Id>, s: Search, target: Id, ws: seq<Id>)
    requires target in s.depth && Counted(roots, s) && Recorded(s) && forall v | v in roots :: v in s.depth
    ensures var r := DiscoverAll(s, target, ws);
            Counted(roots, r) && Recorded(r) && forall v | v in roots :: v in r.depth
    decreases |ws|
  {
    if ws != [] {
      var n := |ws| - 1;
      DiscoverAllCounted(p, roots, s, target, ws[..n]);
      var q := DiscoverAll(s, target, ws[..n]);
      var w := ws[n];
      if w !in q.depth {
        var before := q.done + q.queue;
        assert q.done + (q.queue + [w]) == before + [w];
        assert (before + [w])[..|before|] == before;
        CountPositive(before, w);
      }
    }
  }

  lemma PopCounted(roots: seq<Id>, s: Search)
    requires s.queue != [] && Counted(roots, s)
    ensures Counted(roots, Pop(s))
  {
    assert s.done + s.queue == (s.done + [s.queue[0]]) + s.queue[1..];
  }

  lemma VisitCounted(p: Plan, roots: seq<Id>, s: Search)
    requires Searching(p, roots, s) && s.queue != [] && s.queue[0] in s.depth && Counted(roots, s)
    ensures Counted(roots, Visit(p, s))
  {
    PopKeeps(p, roots, s);
    PopCounted(roots, s);
    DiscoverAllCounted(p, roots, Pop(s), s.queue[0], StepsFrom(p, s.depth, s.queue[0]));
  }

  lemma {:induction false} FinishCounted(p: Plan, roots: seq<Id>, s: Search)
    requires Confined(p) && Searching(p, roots, s) && Counted(roots, s)
    ensures Counted(roots, Finish(p, roots, s))
    decreases ToCome(p, s)
  {
    if s.queue != [] {
      assert s.queue[0] in s.queue;
      VisitKeeps(p, roots, s);
      VisitToCome(p, roots, s);
      VisitCounted(p, roots, s);
      FinishCounted(p, roots, Visit(p, s));
    }
  }
}
