// find_backref_chain: a shortest chain of references from an object the caller asks for.
module BackrefChain {
  import opened Wrappers
  import opened ObjectGraph

  function Sources(g: Graph): Id -> seq<Id> {
    v => Usable(g, g.edges(v))
  }

  function Referrers(g: Graph, maxDepth: int): Plan {
    Plan(g.objects, Sources(g), DepthBound(maxDepth))
  }

  // A chain the caller may be shown: it starts where the predicate holds, ends at obj, and
  // each element is a usable referrer of the next.
  ghost predicate BackrefTo(g: Graph, obj: Id, wanted: Id -> bool, c: seq<Id>) {
    Chain(Sources(g), c) && c[|c| - 1] == obj && wanted(c[0])
  }

  // The None object refers to nothing, so the collector never reports it as a referrer.
  ghost predicate NoneIsNoSource(g: Graph, none: Id) {
    forall v :: none !in g.edges(v)
  }

  lemma ReferrersConfined(g: Graph, maxDepth: int)
    requires Closed(g)
    ensures Confined(Referrers(g, maxDepth))
  {
    forall v, w | v in g.objects && w in Usable(g, g.edges(v)) ensures w in g.objects {
      UsableMembers(g, g.edges(v));
    }
  }

  // Below the root, every parent link leads to a recorded object one level up.
  lemma ParentLink(g: Graph, p: Plan, obj: Id, none: Id, s: Search, v: Id)
    requires Rooted(p, [obj], s) && NoneIsNoSource(g, none) && p.steps == Sources(g)
    requires v in s.depth && v != obj
    ensures v != none && v in s.parent && s.parent[v] in s.depth && s.depth[v] == s.depth[s.parent[v]] + 1
    ensures v in p.steps(s.parent[v])
  {
    assert Hangs(p, [obj], s, v);
    UsableMembers(g, g.edges(s.parent[v]));
  }

  // The whole chain behind what is shown: what is shown lacks the root when the root is the
  // None object and the chain has a link.
  function WithRoot(obj: Id, none: Id, links: bool, shown: seq<Id>): seq<Id> {
    if obj == none && links then shown + [obj] else shown
  }

  // The while loop that rebuilds the chain from the parent links, obj's being the end
  // marker `none` (Python's None).
  method FollowParents(g: Graph, ghost p: Plan, obj: Id, none: Id, start: Id, ghost s: Search, parent: map<Id, Id>)
    returns (chain: seq<Id>)
    requires Rooted(p, [obj], s) && NoneIsNoSource(g, none) && p.steps == Sources(g)
    requires parent == s.parent && obj in parent && parent[obj] == none && start in s.depth
    ensures var full := WithRoot(obj, none, start != obj, chain);
            Chain(p.steps, full) && full[0] == start && full[|full| - 1] == obj && |full| == s.depth[start] + 1
  {
    var target := start;
    chain := [target];
    assert Hangs(p, [obj], s, obj);
    if target != obj { ParentLink(g, p, obj, none, s, target); }
    while parent[target] != none
      invariant target in s.depth && chain != [] && chain[0] == start && chain[|chain| - 1] == target
      invariant target in parent && (target != obj ==> target != none)
      invariant Chain(p.steps, chain) && |chain| + s.depth[target] == s.depth[start] + 1
      invariant start == obj ==> target == obj
      invariant start != obj && target == obj ==> obj != none
      decreases s.depth[target]
    {
      ParentLink(g, p, obj, none, s, target);
      target := parent[target];
      chain := chain + [target];
      if target != obj { ParentLink(g, p, obj, none, s, target); }
    }
    if target != obj {
      ParentLink(g, p, obj, none, s, target);
      if parent[target] != obj { ParentLink(g, p, obj, none, s, parent[target]); }
    }
  }

  // The inner for loop: record the usable referrers of target that are new.
  method Enqueue(g: Graph, target: Id, ghost s: Search,
                 depth0: map<Id, nat>, parent0: map<Id, Id>, queue0: seq<Id>)
    returns (depth: map<Id, nat>, parent: map<Id, Id>, queue: seq<Id>)
    requires target in s.depth && s == Search(depth0, parent0, queue0, s.done)
    ensures Search(depth, parent, queue, s.done) == DiscoverAll(s, target, Usable(g, g.edges(target)))
  {
    depth, parent, queue := depth0, parent0, queue0;
    var tdepth := depth[target];
    var referrers := g.edges(target);
    for i := 0 to |referrers|
      invariant Search(depth, parent, queue, s.done) == DiscoverAll(s, target, Usable(g, referrers[..i]))
    {
      var source := referrers[i];
      assert referrers[..i + 1] == referrers[..i] + [source];
      UsableSnoc(g, referrers[..i], source);
      if !g.usable(source) {
        assert Usable(g, referrers[..i]) + [] == Usable(g, referrers[..i]);
        continue;
      }
      ghost var ws := Usable(g, referrers[..i]);
      DiscoverAllSnoc(s, target, ws, source);
      if source !in depth {
        depth := depth[source := tdepth + 1];
        parent := parent[source := target];
        queue := queue + [source];
      }
    }
    assert referrers[..|referrers|] == referrers;
  }

  // One turn of the search loop for an object that is not wanted.
  method VisitOne(g: Graph, target: Id, maxDepth: int, ghost s: Search,
                  depth0: map<Id, nat>, parent0: map<Id, Id>, queue0: seq<Id>)
    returns (depth: map<Id, nat>, parent: map<Id, Id>, queue: seq<Id>)
    requires s == Search(depth0, parent0, queue0, s.done)
    requires queue0 != [] && target == queue0[0] && target in depth0
    ensures Visit(Referrers(g, maxDepth), s) == Search(depth, parent, queue, s.done + [target])
  {
    depth, parent, queue := depth0, parent0, queue0[1..];
    var tdepth := depth[target];
    if tdepth < maxDepth {
      depth, parent, queue := Enqueue(g, target, Pop(s), depth, parent, queue);
    }
  }

  // While nothing done is wanted, no acceptable chain is shorter than what is finished.
  lemma NoShorterChain(g: Graph, obj: Id, wanted: Id -> bool, p: Plan, s: Search, d: nat)
    requires p.steps == Sources(g) && d <= p.bound + 1
    requires Rooted(p, [obj], s) && Expanded(p, s)
    requires forall v | v in s.depth && s.depth[v] < d :: v in s.done
    requires forall v | v in s.done :: !wanted(v)
    ensures forall c | BackrefTo(g, obj, wanted, c) :: d < |c|
  {
    forall c | BackrefTo(g, obj, wanted, c) ensures d < |c| {
      if |c| <= d {
        assert Chain(p.steps, c);
        ChainRecorded(p, [obj], s, |c| - 1, c);
        assert false;
      }
    }
  }

  // The state between two turns of the loop, for the search for a wanted object.
  ghost predicate Hunting(g: Graph, obj: Id, none: Id, wanted: Id -> bool, maxDepth: int, s: Search) {
    && Searching(Referrers(g, maxDepth), [obj], s)
    && obj in s.parent && s.parent[obj] == none
    && (forall v | v in s.done :: !wanted(v))
    && (s.queue == [obj] || obj in s.done)
  }

  lemma HuntingStarts(g: Graph, obj: Id, none: Id, wanted: Id -> bool, maxDepth: int)
    requires obj in g.objects
    ensures var s := Search(map[obj := 0], map[obj := none], [obj], []);
            s == Start([obj], map[obj := none]) && Hunting(g, obj, none, wanted, maxDepth, s)
  {
    StartKeeps(Referrers(g, maxDepth), [obj], map[obj := none]);
    assert Start([obj], map[obj := none]).depth == map[obj := 0];
  }

  lemma {:induction false} HuntingGoesOn(g: Graph, obj: Id, none: Id, wanted: Id -> bool, maxDepth: int, s: Search)
    requires Closed(g) && Hunting(g, obj, none, wanted, maxDepth, s) && s.queue != [] && !wanted(s.queue[0])
    requires s.queue[0] in s.depth
    ensures var p := Referrers(g, maxDepth);
            Hunting(g, obj, none, wanted, maxDepth, Visit(p, s)) && ToCome(p, Visit(p, s)) < ToCome(p, s)
  {
    var p := Referrers(g, maxDepth);
    ReferrersConfined(g, maxDepth);
    VisitKeeps(p, [obj], s);
    VisitToCome(p, [obj], s);
    HuntingRemembers(obj, none, wanted, s, Visit(p, s));
  }

  // What is particular to the search for a wanted object, when an unwanted one is done.
  lemma HuntingRemembers(obj: Id, none: Id, wanted: Id -> bool, s: Search, r: Search)
    requires obj in s.depth && obj in s.parent && s.parent[obj] == none && (forall v | v in s.done :: !wanted(v))
    requires s.queue != [] && (s.queue == [obj] || obj in s.done) && !wanted(s.queue[0])
    requires Extends(s, r) && r.done == s.done + [s.queue[0]]
    ensures obj in r.parent && r.parent[obj] == none && (forall v | v in r.done :: !wanted(v)) && obj in r.done
  {
    if s.queue == [obj] { assert r.done[|s.done|] == obj; }
  }

  // What a wanted object at the head of the queue means.
  lemma HuntingFound(g: Graph, obj: Id, none: Id, wanted: Id -> bool, maxDepth: int, s: Search)
    requires Hunting(g, obj, none, wanted, maxDepth, s) && s.queue != [] && wanted(s.queue[0])
    ensures s.queue[0] in s.depth && s.depth[s.queue[0]] <= DepthBound(maxDepth)
    ensures s.queue[0] == obj <==> wanted(obj)
    ensures forall c | BackrefTo(g, obj, wanted, c) :: s.depth[s.queue[0]] < |c|
  {
    var p := Referrers(g, maxDepth);
    assert s.queue[0] in s.queue;
    assert Hangs(p, [obj], s, s.queue[0]);
    NoShorterChain(g, obj, wanted, p, s, s.depth[s.queue[0]]);
  }

  // A chain down to an object nothing refers to does not also end in it one link earlier.
  lemma RootIsMissing(g: Graph, none: Id, wanted: Id -> bool, chain: seq<Id>)
    requires chain != [] && BackrefTo(g, none, wanted, chain + [none]) && NoneIsNoSource(g, none)
    ensures !BackrefTo(g, none, wanted, chain)
  {
    var full, n := chain + [none], |chain| - 1;
    assert full[n] in Sources(g)(full[n + 1]);
    UsableMembers(g, g.edges(none));
  }

  // A concrete one: the None object (0), which the wanted object (1) refers to.
  lemma NoneChainStopsShort() returns (g: Graph, none: Id, wanted: Id -> bool, full: seq<Id>)
    ensures Closed(g) && none in g.objects && NoneIsNoSource(g, none)
    ensures BackrefTo(g, none, wanted, full) && |full| == 2
    ensures !BackrefTo(g, none, wanted, full[..1])
  {
    none, wanted, full := 0, v => v == 1, [1, 0];
    g := Graph({0, 1}, v => if v == 0 then [1] else [], v => true);
    assert Usable(g, [1]) == [1];
  }

  // The chain shown for a wanted object at the head of the queue.
  method ChainFrom(g: Graph, obj: Id, wanted: Id -> bool, maxDepth: int, none: Id, ghost s: Search,
                   target: Id, parent: map<Id, Id>)
    returns (chain: seq<Id>)
    requires NoneIsNoSource(g, none) && Hunting(g, obj, none, wanted, maxDepth, s) && parent == s.parent
    requires s.queue != [] && target == s.queue[0] && wanted(target)
    ensures var full := WithRoot(obj, none, !wanted(obj), chain);
            && BackrefTo(g, obj, wanted, full) && (|full| == 1 || |full| - 1 <= maxDepth)
            && forall c | BackrefTo(g, obj, wanted, c) :: |full| <= |c|
    ensures BackrefTo(g, obj, wanted, chain) <==> obj != none || wanted(obj)
  {
    HuntingFound(g, obj, none, wanted, maxDepth, s);
    chain := FollowParents(g, Referrers(g, maxDepth), obj, none, target, s, parent);
    if obj == none && target != obj { RootIsMissing(g, none, wanted, chain); }
  }

  // An exhausted search has missed no chain within the bound.
  lemma HuntingFailed(g: Graph, obj: Id, none: Id, wanted: Id -> bool, maxDepth: int, s: Search)
    requires Hunting(g, obj, none, wanted, maxDepth, s) && s.queue == []
    ensures forall c | BackrefTo(g, obj, wanted, c) :: |c| > 1 && |c| - 1 > maxDepth
  {
    NoShorterChain(g, obj, wanted, Referrers(g, maxDepth), s, DepthBound(maxDepth) + 1);
  }

  // find_backref_chain.  A chain is returned exactly when an acceptable one lies within the
  // bound; with its root it is acceptable and none is shorter.  As shown it is acceptable
  // unless obj is the None object and is not itself wanted.
  method FindBackrefChain(g: Graph, obj: Id, wanted: Id -> bool, maxDepth: int, none: Id)
    returns (r: Option<seq<Id>>)
    requires Closed(g) && obj in g.objects && NoneIsNoSource(g, none)
    ensures r.Some? ==>
              var full := WithRoot(obj, none, !wanted(obj), r.value);
              && BackrefTo(g, obj, wanted, full) && (|full| == 1 || |full| - 1 <= maxDepth)
              && forall c | BackrefTo(g, obj, wanted, c) :: |full| <= |c|
    ensures r.Some? ==> (BackrefTo(g, obj, wanted, r.value) <==> obj != none || wanted(obj))
    ensures r.None? ==> forall c | BackrefTo(g, obj, wanted, c) :: |c| > 1 && |c| - 1 > maxDepth
  {
    var queue, depth: map<Id, nat>, parent: map<Id, Id> := [obj], map[obj := 0], map[obj := none];
    ghost var s := Search(depth, parent, queue, []);
    HuntingStarts(g, obj, none, wanted, maxDepth);
    while queue != []
      invariant Hunting(g, obj, none, wanted, maxDepth, s)
      invariant s == Search(depth, parent, queue, s.done)
      decreases ToCome(Referrers(g, maxDepth), s)
    {
      var target := queue[0];
      assert target in queue;
      if wanted(target) {
        var chain := ChainFrom(g, obj, wanted, maxDepth, none, s, target, parent);
        return Some(chain);
      }
      HuntingGoesOn(g, obj, none, wanted, maxDepth, s);
      depth, parent, queue := VisitOne(g, target, maxDepth, s, depth, parent, queue);
      s := Search(depth, parent, queue, s.done + [target]);
    }
    HuntingFailed(g, obj, none, wanted, maxDepth, s);
    return None;
  }
}
