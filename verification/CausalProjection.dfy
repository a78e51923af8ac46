/**
  scripts/causal_projection.py: the shortest causal path between two concepts,
  and every upstream antecedent of a target with one shortest path each.
 */
module CausalProjection {
  import opened Prelude
  import opened Keys
  import opened CausalGraph
  import opened CausalSearch

  ghost predicate StrictSteps(v: View, xs: seq<nat>)
  {
    forall i, j :: 0 <= i < j < |xs| ==> Less(v.StepKey(xs[i]), v.StepKey(xs[j]))
  }

  ghost predicate Outgoing(v: View, n: string, xs: seq<nat>)
  {
    forall e: nat :: e in xs <==> v.Has(e) && v.Near(e) == n
  }

  lemma StepKeyInjective(v: View, d: nat, e: nat)
    requires v.Has(d) && v.Has(e)
    ensures v.StepKey(d) == v.StepKey(e) ==> d == e
  {
    assert v.StepKey(d).parts[3] == Num(d) && v.StepKey(e).parts[3] == Num(e);
  }

  ghost predicate Increasing(xs: seq<nat>)
  {
    forall i, j :: 0 <= i < j < |xs| ==> xs[i] < xs[j]
  }

  /** xs are the positions before i on which node n stands, in list order. */
  ghost predicate Group(v: View, n: string, i: nat, xs: seq<nat>)
  {
    Increasing(xs) && forall e: nat :: e in xs <==> e < i && v.Has(e) && v.Near(e) == n
  }

  lemma GroupNext(v: View, n: string, i: nat, xs: seq<nat>)
    requires Group(v, n, i, xs) && v.Has(i) && v.Near(i) == n
    ensures Group(v, n, i + 1, xs + [i])
  {
    var ys := xs + [i];
    forall e: nat ensures e in ys <==> e < i + 1 && v.Has(e) && v.Near(e) == n {
      assert e in ys <==> e in xs || e == i;
    }
    forall j, k | 0 <= j < k < |ys| ensures ys[j] < ys[k] {
      if k == |xs| { assert xs[j] in xs; }
    }
  }

  lemma SortedSteps(v: View, n: string, xs: seq<nat>)
    requires Outgoing(v, n, xs) && Increasing(xs)
    ensures Outgoing(v, n, SortBy(xs, (e: nat) => v.StepKey(e)))
    ensures StrictSteps(v, SortBy(xs, (e: nat) => v.StepKey(e)))
  {
    var key := (e: nat) => v.StepKey(e);
    var ys := SortBy(xs, key);
    SortBySorts(xs, key);
    DistinctByCount(xs, ys);
    forall i, j | 0 <= i < j < |ys| ensures Less(v.StepKey(ys[i]), v.StepKey(ys[j])) {
      assert Leq(key(ys[i]), key(ys[j])) && ys[i] in xs && ys[j] in xs;
      StepKeyInjective(v, ys[i], ys[j]);
    }
  }

  /** Edges grouped by the node a search stands on, each group in tie-break order. */
  method SortedAdjacency(v: View) returns (adj: map<string, seq<nat>>)
    ensures forall e :: v.Has(e) ==> v.Near(e) in adj
    ensures forall n :: n in adj ==> Outgoing(v, n, adj[n]) && StrictSteps(v, adj[n])
  {
    var groups: map<string, seq<nat>> := map[];
    for i := 0 to |v.edges|
      invariant forall e :: 0 <= e < i ==> v.Near(e) in groups
      invariant forall n :: n in groups ==> Group(v, n, i, groups[n])
    {
      var n := v.Near(i);
      var group := if n in groups then groups[n] else [];
      forall m | m in groups ensures m != n ==> Group(v, m, i + 1, groups[m]) {}
      assert Group(v, n, i, group);
      GroupNext(v, n, i, group);
      groups := groups[n := group + [i]];
    }
    forall n | n in groups ensures Outgoing(v, n, groups[n]) && Increasing(groups[n]) {
      assert Group(v, n, |v.edges|, groups[n]);
    }
    adj := groups;
    var rest := groups.Keys;
    while rest != {}
      invariant rest <= adj.Keys == groups.Keys
      invariant forall n :: n in rest ==> adj[n] == groups[n]
      invariant forall n :: n in groups ==> Outgoing(v, n, groups[n]) && Increasing(groups[n])
      invariant forall n :: n in adj && n !in rest ==> Outgoing(v, n, adj[n]) && StrictSteps(v, adj[n])
      decreases rest
    {
      var n :| n in rest;
      SortedSteps(v, n, groups[n]);
      adj, rest := adj[n := SortBy(adj[n], (e: nat) => v.StepKey(e))], rest - {n};
    }
  }

  /** What `previous` (or `next_step`) holds for a discovered node. */
  datatype Step = Origin | Via(node: string, edge: nat)

  ghost predicate Linked(v: View, start: string, previous: map<string, Step>, path: map<string, seq<nat>>)
  {
    && previous.Keys == path.Keys && start in path
    && forall n :: n in path ==>
         if n == start then previous[n].Origin?
         else (
           && previous[n].Via?
           && var Via(m, e) := previous[n];
              m in path && v.Has(e) && v.Near(e) == m && path[n] == path[m] + [e])
  }

  /** path' records, besides what path did, the nodes found, each one step further than u. */
  ghost predicate Found(path: map<string, seq<nat>>, path': map<string, seq<nat>>, u: string, found: seq<string>)
    requires u in path
  {
    && (forall n :: n in path ==> n in path' && path'[n] == path[n])
    && (forall n :: n in path' ==> n in path || n in found)
    && (forall n :: n in found ==> n !in path && n in path' && |path'[n]| == |path[u]| + 1)
  }

  lemma FoundMore(path: map<string, seq<nat>>, path': map<string, seq<nat>>, u: string, found: seq<string>,
                  next: string, e: nat)
    requires u in path && Found(path, path', u, found) && next !in path'
    ensures Found(path, path'[next := path'[u] + [e]], u, found + [next])
  {
  }

  lemma LinkMore(v: View, start: string, previous: map<string, Step>, path: map<string, seq<nat>>, u: string,
                 next: string, e: nat)
    requires Linked(v, start, previous, path) && u in path && next !in path && v.Has(e) && v.Near(e) == u
    ensures Linked(v, start, previous[next := Via(u, e)], path[next := path[u] + [e]])
  {
  }

  /** The inner loop of both searches: discover the neighbours of u along its sorted edges. */
  method Expand(v: View, ghost start: string, u: string, out: seq<nat>, waiting: seq<string>, known: map<string, Step>,
                ghost done: set<string>, ghost path: map<string, seq<nat>>, ghost bound: Option<int>)
    returns (found: seq<string>, previous: map<string, Step>, ghost path': map<string, seq<nat>>)
    requires Search(v, start, done, waiting, path) && Linked(v, start, known, path) && u in done && u in path
    requires Covered(v, done - {u}, path, bound)
    requires known.Keys == path.Keys && Outgoing(v, u, out) && StrictSteps(v, out)
    requires forall e :: e in out ==> Ahead(v, path, u, e)
    ensures previous.Keys == path'.Keys
    ensures Search(v, start, done, waiting + found, path') && Linked(v, start, previous, path')
    ensures Covered(v, done, path', bound)
    ensures Found(path, path', u, found)
    ensures previous.Keys == known.Keys + (set n | n in found) && forall n :: n in found ==> n !in known
    ensures forall e :: e in out ==> v.Has(e) && v.Far(e) in previous
  {
    hide Less;
    hide Walk;
    hide WalkKey;
    hide Search;
    hide Covered;
    hide Reaches;
    hide Ahead;
    hide StrictSteps;
    hide Linked;
    found, previous, path' := [], known, path;
    assert waiting + [] == waiting;
    for k := 0 to |out|
      invariant Found(path, path', u, found) && previous.Keys == path'.Keys
      invariant forall j :: 0 <= j < k ==> v.Far(out[j]) in previous
      invariant Search(v, start, done, waiting + found, path') && Linked(v, start, previous, path')
      invariant Covered(v, done - {u}, path', bound)
      invariant forall j :: 0 <= j < k ==> v.Has(out[j]) && Reaches(v, path', u, out[j])
      invariant forall j :: k <= j < |out| ==> Ahead(v, path', u, out[j])
    {
      var e := out[k];
      assert e in out && Ahead(v, path', u, e);
      var next := v.Far(e);
      if next !in previous {
        DiscoverOne(v, start, done, waiting + found, path', u, out, k, bound);
        FoundMore(path, path', u, found, next, e);
        LinkMore(v, start, previous, path', u, next, e);
        assert waiting + found + [next] == waiting + (found + [next]);
        previous := previous[next := Via(u, e)];
        found := found + [next];
        path' := path'[next := path'[u] + [e]];
      } else {
        KnownReached(v, path', u, e);
      }
    }
    CoverLast(v, done, path', u, out, bound);
  }

  lemma CoverLast(v: View, done: set<string>, path: map<string, seq<nat>>, u: string, out: seq<nat>, bound: Option<int>)
    requires Covered(v, done - {u}, path, bound) && u in path && Outgoing(v, u, out)
    requires forall j :: 0 <= j < |out| ==> v.Has(out[j]) && Reaches(v, path, u, out[j])
    ensures Covered(v, done, path, bound)
  {
    forall e | v.Has(e) && v.Near(e) in done && v.Near(e) in path && Expands(|path[v.Near(e)]|, bound)
      ensures Reaches(v, path, v.Near(e), e)
    {
      if v.Near(e) == u {
        var j :| 0 <= j < |out| && out[j] == e;
        assert Reaches(v, path, u, out[j]);
      }
    }
  }

  lemma KnownReached(v: View, path: map<string, seq<nat>>, u: string, e: nat)
    requires v.Has(e) && u in path && v.Far(e) in path && Ahead(v, path, u, e)
    ensures Reaches(v, path, u, e)
  {
  }

  lemma DiscoverOne(v: View, start: string, done: set<string>, queue: seq<string>, path: map<string, seq<nat>>,
                    u: string, out: seq<nat>, k: nat, bound: Option<int>)
    requires Search(v, start, done, queue, path) && u in done && u in path
    requires Covered(v, done - {u}, path, bound)
    requires Outgoing(v, u, out) && StrictSteps(v, out) && k < |out| && v.Has(out[k]) && v.Far(out[k]) !in path
    requires forall j :: 0 <= j < k ==> v.Has(out[j]) && Reaches(v, path, u, out[j])
    requires forall j :: k <= j < |out| ==> Ahead(v, path, u, out[j])
    ensures var path' := path[v.Far(out[k]) := path[u] + [out[k]]];
            && Search(v, start, done, queue + [v.Far(out[k])], path')
            && Covered(v, done - {u}, path', bound)
            && (forall j :: 0 <= j <= k ==> v.Has(out[j]) && Reaches(v, path', u, out[j]))
            && (forall j :: k < j < |out| ==> Ahead(v, path', u, out[j]))
  {
    hide Less;
    hide Walk;
    hide WalkKey;
    var e := out[k];
    var path' := path[v.Far(e) := path[u] + [e]];
    assert e in out;
    Discover(v, start, done, queue, path, u, e);
    StillCovered(v, start, done, queue, path, done - {u}, bound, v.Far(e), path[u] + [e]);
    forall j | k < j < |out| ensures Ahead(v, path', u, out[j]) {
      assert out[j] in out;
      StillAhead(v, path, u, e, out[j]);
    }
    forall j | 0 <= j <= k ensures v.Has(out[j]) && Reaches(v, path', u, out[j]) {
      if j < k { assert Reaches(v, path, u, out[j]); }
    }
  }

  // ----- reading a walk back

  /** A causal path: the concepts it passes and the positions of its edges, cause first. */
  datatype Route = Route(nodes: seq<string>, path: seq<nat>)

  /** Follows the recorded steps from n back to the start of the search. */
  method TraceBack(v: View, start: string, n: string, previous: map<string, Step>,
                   ghost path: map<string, seq<nat>>)
    returns (nodes: seq<string>, steps: seq<nat>)
    requires Linked(v, start, previous, path) && previous.Keys == path.Keys && n in path && path[start] == []
    ensures steps == Reversed(path[n])
    ensures forall i :: 0 <= i < |steps| ==> v.Has(steps[i])
    ensures nodes == [n] + seq(|steps|, i requires 0 <= i < |steps| => v.Near(steps[i]))
  {
    hide Walk;
    hide WalkKey;
    hide Linked;
    nodes, steps := [n], [];
    var current := n;
    while current != start
      invariant current in path && path[n] == path[current] + Reversed(steps)
      invariant forall i :: 0 <= i < |steps| ==> v.Has(steps[i])
      invariant nodes == [n] + seq(|steps|, i requires 0 <= i < |steps| => v.Near(steps[i]))
      invariant nodes[|nodes| - 1] == current
      decreases |path[current]|
    {
      LinkedStep(v, start, previous, path, current);
      var Via(node, edge) := previous[current];
      assert [edge] + Reversed(steps) == Reversed(steps + [edge]);
      nodes, steps, current := nodes + [node], steps + [edge], node;
    }
    assert path[n] == Reversed(steps);
    ReversedTwice(steps);
  }

  lemma LinkedStep(v: View, start: string, previous: map<string, Step>, path: map<string, seq<nat>>, n: string)
    requires Linked(v, start, previous, path) && n in path && n != start
    ensures n in previous && previous[n].Via? && previous[n].node in path
    ensures v.Has(previous[n].edge) && v.Near(previous[n].edge) == previous[n].node
    ensures path[n] == path[previous[n].node] + [previous[n].edge]
  {
  }

  // ----- one path

  lemma {:induction false} AllReached(v: View, start: string, done: set<string>, path: map<string, seq<nat>>,
                                      bound: Option<int>,
                   q: seq<nat>, x: string)
    requires Search(v, start, done, [], path) && Covered(v, done, path, bound)
    requires Walk(v, start, q, x) && InReach(|q|, bound)
    ensures x in done && x in path
  {
    Best(v, start, done, [], path, bound, q, x);
  }

  ghost function Universe(v: View, start: string): set<string>
  {
    {start} + set i: nat | i < |v.edges| :: v.Far(i)
  }

  lemma InUniverse(v: View, start: string, done: set<string>, queue: seq<string>, path: map<string, seq<nat>>)
    requires Search(v, start, done, queue, path)
    ensures path.Keys <= Universe(v, start)
  {
    forall n | n in path ensures n in Universe(v, start) {
      if n != start { assert Parented(v, done, path, n); }
    }
  }

  lemma Begin(v: View, start: string, bound: Option<int>)
    ensures Search(v, start, {}, [start], map[start := []])
    ensures Linked(v, start, map[start := Origin], map[start := []])
    ensures Covered(v, {}, map[start := []], bound)
  {
  }

  /** Everything the loop of a search needs when it takes the head u off the queue. */
  lemma TakeHead(v: View, start: string, done: set<string>, queue: seq<string>, path: map<string, seq<nat>>,
                 bound: Option<int>)
    requires Search(v, start, done, queue, path) && Covered(v, done, path, bound) && queue != []
    ensures queue[0] in path && queue[0] !in done && path.Keys <= Universe(v, start)
    ensures Search(v, start, done + {queue[0]}, queue[1..], path)
    ensures Covered(v, done + {queue[0]} - {queue[0]}, path, bound)
    ensures forall e :: v.Has(e) && v.Near(e) == queue[0] ==> Ahead(v, path, queue[0], e)
  {
    forall e | v.Has(e) && v.Near(e) == queue[0] ensures Ahead(v, path, queue[0], e) {
      HeadAhead(v, start, done, queue, path, e);
    }
    Pop(v, start, done, queue, path);
    InUniverse(v, start, done, queue, path);
    assert done + {queue[0]} - {queue[0]} == done;
  }

  lemma {:induction false} NodesReversed(v: View, a: string, p: seq<nat>, b: string)
    requires Walk(v, a, p, b)
    ensures forall i :: 0 <= i < |p| ==> v.Has(p[i])
    ensures Reversed([b] + seq(|p|, i requires 0 <= i < |p| => v.Near(Reversed(p)[i]))) == NodesAlong(v, a, p)
  {
    WalkEdges(v, a, p, b);
  }

  /** `shortest_path`: none if the target cannot be reached, otherwise the first of all walks to it. */
  method ShortestPath(source: string, target: string, edges: seq<Edge>) returns (r: Option<Route>)
    ensures r.None? <==> !exists p :: Walk(View(edges, true), source, p, target)
    ensures r.Some? ==>
              ValidRoute(edges, source, target, r.value) && FirstWalk(View(edges, true), source, r.value.path, target)
  {
    hide Walk;
    hide WalkKey;
    hide Less;
    hide Search;
    hide Linked;
    hide Covered;
    hide Ahead;
    hide Partition;
    var v := View(edges, true);
    var outgoing := SortedAdjacency(v);
    var queue, previous := [source], map[source := Origin];
    ghost var done, path := {}, map[source := []];
    ghost var hit := false;
    Begin(v, source, None);
    while queue != []
      invariant Search(v, source, done, queue, path) && Linked(v, source, previous, path)
      invariant Covered(v, done, path, None) && previous.Keys == path.Keys
      invariant target !in done && !hit && done <= path.Keys
      decreases Universe(v, source) - done
    {
      var node := queue[0];
      TakeHead(v, source, done, queue, path, None);
      if node == target {
        RecordedFirst(v, source, done, queue, path, None, target);
        hit := true;
        break;
      }
      queue, done := queue[1..], done + {node};
      var out := if node in outgoing then outgoing[node] else [];
      assert Outgoing(v, node, out) && StrictSteps(v, out);
      var found;
      found, previous, path := Expand(v, source, node, out, queue, previous, done, path, None);
      queue := queue + found;
    }
    if target !in previous {
      forall p | Walk(v, source, p, target) ensures false {
        AllReached(v, source, done, path, None, p, target);
      }
      return None;
    }
    if !hit { Exhausted(v, source, done, path); }
    SearchStart(v, source, done, queue, path);
    var nodes, steps := TraceBack(v, source, target, previous, path);
    ReversedTwice(path[target]);
    NodesReversed(v, source, path[target], target);
    assert Walk(v, source, Reversed(steps), target);
    r := Some(Route(Reversed(nodes), Reversed(steps)));
  }

  /** The route's edges exist and lead from source to target through exactly its nodes. */
  ghost predicate ValidRoute(edges: seq<Edge>, source: string, target: string, r: Route)
  {
    && Walk(View(edges, true), source, r.path, target)
    && (forall i :: 0 <= i < |r.path| ==> r.path[i] < |edges|)
    && r.nodes == NodesAlong(View(edges, true), source, r.path)
  }

  lemma Exhausted(v: View, start: string, done: set<string>, path: map<string, seq<nat>>)
    requires Search(v, start, done, [], path)
    ensures path.Keys == done
  {
  }

  lemma SearchStart(v: View, start: string, done: set<string>, queue: seq<string>, path: map<string, seq<nat>>)
    requires Search(v, start, done, queue, path)
    ensures start in path && path[start] == []
  {
  }

  // ----- every antecedent

  /** r leads to the target by the walk the reverse search finds first, within the depth bound. */
  ghost predicate Cause(edges: seq<Edge>, target: string, bound: Option<int>, r: Route)
  {
    && r.nodes != [] && r.nodes[0] != target
    && ValidRoute(edges, r.nodes[0], target, r)
    && InReach(|r.path|, bound)
    && FirstWalk(View(edges, false), target, Reversed(r.path), r.nodes[0])
  }

  function RouteKey(r: Route): Key
  {
    Tuple([Num(|r.path|), Text(if r.nodes == [] then "" else r.nodes[0])])
  }

  ghost predicate Lists(rs: seq<Route>, s: string)
  {
    exists i :: 0 <= i < |rs| && rs[i].nodes != [] && rs[i].nodes[0] == s
  }

  /** rs are the antecedents of the target within the bound, each once, nearest first. */
  ghost predicate CauseList(edges: seq<Edge>, target: string, bound: Option<int>, rs: seq<Route>)
  {
    && (forall i :: 0 <= i < |rs| ==> Cause(edges, target, bound, rs[i]))
    && (forall i, j :: 0 <= i < j < |rs| ==> Less(RouteKey(rs[i]), RouteKey(rs[j])))
    && (forall s, p :: s != target && Walk(View(edges, false), target, p, s) && InReach(|p|, bound) ==> Lists(rs, s))
  }

  /** What the reverse search knows about distances. */
  ghost predicate Measured(path: map<string, seq<nat>>, distance: map<string, nat>, bound: Option<int>)
  {
    distance.Keys == path.Keys && forall n :: n in path ==> distance[n] == |path[n]| && InReach(|path[n]|, bound)
  }

  lemma MeasureFound(path: map<string, seq<nat>>, path': map<string, seq<nat>>, distance: map<string, nat>,
                     bound: Option<int>, u: string, found: seq<string>)
    requires u in path && Found(path, path', u, found) && Measured(path, distance, bound)
    requires Expands(|path[u]|, bound)
    ensures Measured(path', distance + map n | n in found :: distance[u] + 1, bound)
  {
  }

  lemma SkipDeep(v: View, done: set<string>, path: map<string, seq<nat>>, u: string, bound: Option<int>)
    requires Covered(v, done - {u}, path, bound) && u in path && !Expands(|path[u]|, bound)
    ensures Covered(v, done, path, bound)
  {
    forall e | v.Has(e) && v.Near(e) in done && v.Near(e) in path && Expands(|path[v.Near(e)]|, bound)
      ensures Reaches(v, path, v.Near(e), e)
    {
      assert v.Near(e) in done - {u};
    }
  }

  /** The loop of `reverse_shortest_paths`, up to the depth bound. */
  method ReverseSearch(target: string, edges: seq<Edge>, bound: Option<int>)
    returns (next: map<string, Step>, distance: map<string, nat>, ghost path: map<string, seq<nat>>)
    ensures Search(View(edges, false), target, path.Keys, [], path)
    ensures Linked(View(edges, false), target, next, path) && next.Keys == path.Keys
    ensures Covered(View(edges, false), path.Keys, path, bound) && Measured(path, distance, bound)
    ensures next.Keys == distance.Keys && Distances(View(edges, false), target, bound, distance)
  {
    hide Walk;
    hide WalkKey;
    hide Less;
    hide Search;
    hide Linked;
    hide Covered;
    hide Ahead;
    hide Partition;
    hide InReach;
    hide WithinReach;
    hide Nearest;
    hide Measured;
    var v := View(edges, false);
    var incoming := SortedAdjacency(v);
    var queue := [target];
    next, distance, path := map[target := Origin], map[target := 0], map[target := []];
    ghost var done: set<string> := {};
    Begin(v, target, bound);
    StartMeasured(target, bound);
    while queue != []
      invariant Search(v, target, done, queue, path) && Linked(v, target, next, path)
      invariant Covered(v, done, path, bound) && next.Keys == path.Keys
      invariant Measured(path, distance, bound)
      decreases Universe(v, target) - done
    {
      var node := queue[0];
      TakeHead(v, target, done, queue, path, bound);
      queue, done := queue[1..], done + {node};
      MeasuredAt(path, distance, bound, node);
      if bound.Some? && distance[node] >= bound.value {
        SkipDeep(v, done, path, node, bound);
        continue;
      }
      var out := if node in incoming then incoming[node] else [];
      assert Outgoing(v, node, out) && StrictSteps(v, out);
      ghost var before := path;
      var found;
      found, next, path := Expand(v, target, node, out, queue, next, done, path, bound);
      MeasureFound(before, path, distance, bound, node, found);
      distance := distance + map n | n in found :: distance[node] + 1;
      queue := queue + found;
    }
    Exhausted(v, target, done, path);
    forall n ensures n in distance <==> WithinReach(v, target, bound, n) {
      ReachedIff(v, target, path, distance, bound, n);
    }
    forall n | n in distance ensures Nearest(v, target, n, distance[n]) {
      ReachedIff(v, target, path, distance, bound, n);
    }
    MeasuredKeys(path, distance, bound);
  }

  lemma MeasuredAt(path: map<string, seq<nat>>, distance: map<string, nat>, bound: Option<int>, n: string)
    requires Measured(path, distance, bound) && n in path
    ensures n in distance && distance[n] == |path[n]|
  {
  }

  lemma MeasuredKeys(path: map<string, seq<nat>>, distance: map<string, nat>, bound: Option<int>)
    requires Measured(path, distance, bound)
    ensures distance.Keys == path.Keys
  {
  }

  /** Exactly the nodes in reach, each with the length of its first walk. */
  ghost predicate Distances(v: View, start: string, bound: Option<int>, distance: map<string, nat>)
  {
    && (forall n :: n in distance <==> WithinReach(v, start, bound, n))
    && (forall n :: n in distance ==> Nearest(v, start, n, distance[n]))
  }

  /** Some walk within the bound leads to n. */
  ghost predicate WithinReach(v: View, start: string, bound: Option<int>, n: string)
  {
    exists p :: Walk(v, start, p, n) && InReach(|p|, bound)
  }

  /** The first walk to n has length d, so none is shorter. */
  ghost predicate Nearest(v: View, start: string, n: string, d: nat)
  {
    exists p :: FirstWalk(v, start, p, n) && |p| == d
  }

  lemma ReachedIff(v: View, start: string, path: map<string, seq<nat>>, distance: map<string, nat>,
                   bound: Option<int>, n: string)
    requires Search(v, start, path.Keys, [], path) && Covered(v, path.Keys, path, bound) &&
             Measured(path, distance, bound)
    ensures n in distance <==> WithinReach(v, start, bound, n)
    ensures n in distance ==> Nearest(v, start, n, distance[n])
  {
    hide Search;
    hide Covered;
    hide Walk;
    hide WalkKey;
    hide InReach;
    hide Less;
    if n in distance { RecordedFirst(v, start, path.Keys, [], path, bound, n); }
    if p :| Walk(v, start, p, n) && InReach(|p|, bound) { AllReached(v, start, path.Keys, path, bound, p, n); }
  }

  lemma StartMeasured(target: string, bound: Option<int>)
    ensures Measured(map[target := []], map[target := 0], bound)
  {
  }

  /** `reverse_shortest_paths`. */
  method ReverseShortestPaths(target: string, edges: seq<Edge>, bound: Option<int>) returns (rs: seq<Route>)
    ensures CauseList(edges, target, bound, rs)
  {
    hide Walk;
    hide WalkKey;
    hide Less;
    hide Search;
    hide Linked;
    hide Covered;
    hide InReach;
    hide FirstWalk;
    hide Distances;
    var v := View(edges, false);
    var next, distance;
    ghost var path;
    next, distance, path := ReverseSearch(target, edges, bound);
    SearchStart(v, target, path.Keys, [], path);
    var key := (n: string) => Tuple([Num(if n in distance then distance[n] else 0), Text(n)]);
    var antecedents := SortedElements(next.Keys - {target}, key);
    rs := [];
    forall i | 0 <= i < |antecedents| ensures antecedents[i] in distance {
      assert antecedents[i] in antecedents;
    }
    for k := 0 to |antecedents|
      invariant |rs| == k
      invariant forall i :: 0 <= i < |antecedents| ==> antecedents[i] in distance
      invariant forall i :: 0 <= i < k ==> Cause(edges, target, bound, rs[i])
      invariant forall i :: 0 <= i < k ==> rs[i].nodes[0] == antecedents[i] && |rs[i].path| == distance[antecedents[i]]
    {
      var n := antecedents[k];
      assert n in antecedents;
      var nodes, steps := TraceBack(v, target, n, next, path);
      TracedCause(edges, target, bound, path, n, nodes, steps);
      rs := rs + [Route(nodes, steps)];
    }
    forall i, j | 0 <= i < j < |rs| ensures Less(RouteKey(rs[i]), RouteKey(rs[j])) {
      assert Leq(key(antecedents[i]), key(antecedents[j]));
      assert antecedents[i] in antecedents && antecedents[j] in antecedents;
      KeyNames(key(antecedents[i]), key(antecedents[j]), antecedents[i], antecedents[j]);
    }
    forall s, p | s != target && Walk(v, target, p, s) && InReach(|p|, bound) ensures Lists(rs, s) {
      AllReached(v, target, path.Keys, path, bound, p, s);
      assert s in antecedents;
      var i :| 0 <= i < |antecedents| && antecedents[i] == s;
      assert rs[i].nodes[0] == s;
    }
  }

  lemma {:induction false} KeyNames(a: Key, b: Key, m: string, n: string)
    requires a.Tuple? && b.Tuple? && |a.parts| == |b.parts| == 2 && a.parts[1] == Text(m) && b.parts[1] == Text(n)
    requires Leq(a, b) && m != n
    ensures Less(a, b)
  {
  }

  lemma TracedCause(edges: seq<Edge>, target: string, bound: Option<int>, path: map<string, seq<nat>>,
                    n: string, nodes: seq<string>, steps: seq<nat>)
    requires Search(View(edges, false), target, path.Keys, [], path)
    requires Covered(View(edges, false), path.Keys, path, bound)
    requires n in path && n != target && InReach(|path[n]|, bound) && steps == Reversed(path[n])
    requires forall i :: 0 <= i < |steps| ==> steps[i] < |edges|
    requires nodes == [n] + seq(|steps|, i requires 0 <= i < |steps| => edges[steps[i]].target)
    ensures Cause(edges, target, bound, Route(nodes, steps))
  {
    hide Less;
    hide Walk;
    hide WalkKey;
    hide Search;
    hide Covered;
    RecordedFirst(View(edges, false), target, path.Keys, [], path, bound, n);
    ReversedTwice(path[n]);
    WalkReversed(edges, false, target, path[n], n);
    assert nodes == NodesAlong(View(edges, true), n, steps);
  }
}
