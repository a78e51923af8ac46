/**
  The invariant both breadth-first searches keep, and why it makes every walk
  they record the first one.
  `done` are the expanded nodes, `queue` the waiting ones, and `path` the walk
  recorded for every discovered node.
 */
module CausalSearch {
  import opened Prelude
  import opened Keys
  import opened CausalGraph

  predicate Expands(depth: nat, bound: Option<int>)
  {
    bound.None? || depth < bound.value
  }

  predicate InReach(length: nat, bound: Option<int>)
  {
    length == 0 || bound.None? || length <= bound.value
  }

  ghost predicate Search(v: View, start: string, done: set<string>, queue: seq<string>, path: map<string, seq<nat>>)
  {
    && Partition(done, queue, path)
    && start in path && path[start] == []
    && (forall n :: n in path ==> Walk(v, start, path[n], n))
    && InOrder(v, done, queue, path)
    && (forall n {:trigger Parented(v, done, path, n)} :: n in path && n != start ==> Parented(v, done, path, n))
  }

  ghost predicate Partition(done: set<string>, queue: seq<string>, path: map<string, seq<nat>>)
  {
    && (forall n :: n in path <==> n in done || n in queue)
    && (forall i :: 0 <= i < |queue| ==> queue[i] !in done)
    && (forall i, j :: 0 <= i < j < |queue| ==> queue[i] != queue[j])
  }

  ghost predicate Earlier(v: View, path: map<string, seq<nat>>, m: string, n: string)
  {
    m in path && n in path && Less(WalkKey(v, path[m]), WalkKey(v, path[n]))
  }

  ghost predicate InOrder(v: View, done: set<string>, queue: seq<string>, path: map<string, seq<nat>>)
  {
    && (forall i, j :: 0 <= i < j < |queue| ==> Earlier(v, path, queue[i], queue[j]))
    && (forall n, i :: n in done && 0 <= i < |queue| ==> Earlier(v, path, n, queue[i]))
  }

  /** The recorded walk of n is that of an expanded node and one more edge. */
  ghost predicate Parented(v: View, done: set<string>, path: map<string, seq<nat>>, n: string)
    requires n in path
  {
    && path[n] != []
    && var e := path[n][|path[n]| - 1];
    v.Has(e) && v.Near(e) in done && v.Near(e) in path && v.Far(e) == n && path[n] == path[v.Near(e)] + [e]
  }

  ghost predicate Covered(v: View, done: set<string>, path: map<string, seq<nat>>, bound: Option<int>)
  {
    forall e :: v.Has(e) && v.Near(e) in done && v.Near(e) in path && Expands(|path[v.Near(e)]|, bound)
      ==> Reaches(v, path, v.Near(e), e)
  }

  ghost predicate Reaches(v: View, path: map<string, seq<nat>>, u: string, e: nat)
    requires v.Has(e) && u in path
  {
    v.Far(e) in path && Leq(WalkKey(v, path[v.Far(e)]), WalkKey(v, path[u] + [e]))
  }

  /** Nothing discovered so far comes after the continuation of u by e. */
  ghost predicate Ahead(v: View, path: map<string, seq<nat>>, u: string, e: nat)
    requires u in path
  {
    forall n :: n in path ==> Less(WalkKey(v, path[n]), WalkKey(v, path[u] + [e]))
  }

  lemma {:induction false} WaitingFirst(v: View, start: string, done: set<string>, queue: seq<string>,
                                        path: map<string, seq<nat>>, n: string)
    requires Search(v, start, done, queue, path) && n in path && n !in done
    ensures queue != [] && Leq(WalkKey(v, path[queue[0]]), WalkKey(v, path[n]))
  {
    var i :| 0 <= i < |queue| && queue[i] == n;
  }

  /** Any walk at all ends in an expanded node recorded no later, or comes no earlier than the queue's head. */
  lemma {:induction false} Best(v: View, start: string, done: set<string>, queue: seq<string>,
                                path: map<string, seq<nat>>, bound: Option<int>, q: seq<nat>, x: string)
    requires Search(v, start, done, queue, path) && Covered(v, done, path, bound)
    requires Walk(v, start, q, x) && InReach(|q|, bound)
    ensures (x in done && x in path && Leq(WalkKey(v, path[x]), WalkKey(v, q))) ||
            (queue != [] && Leq(WalkKey(v, path[queue[0]]), WalkKey(v, q)))
    decreases |q|
  {
    if q == [] {
      if start !in done { WaitingFirst(v, start, done, queue, path, start); }
    } else {
      var e, q' := q[|q| - 1], q[..|q| - 1];
      var u := v.Near(e);
      assert q == q' + [e];
      Best(v, start, done, queue, path, bound, q', u);
      Longer(v, q', q);
      if u in done && Leq(WalkKey(v, path[u]), WalkKey(v, q')) {
        if |path[u]| > |q'| {
          Longer(v, q', path[u]);
          LeqAntisymmetric(WalkKey(v, path[u]), WalkKey(v, q'));
        }
        assert Reaches(v, path, u, e);
        if WalkKey(v, path[u]) == WalkKey(v, q') {
          WalkKeyInjective(v, start, path[u], q', u, u);
        } else {
          ExtendLess(v, path[u], q', e, e);
        }
        LeqTransitive(WalkKey(v, path[x]), WalkKey(v, path[u] + [e]), WalkKey(v, q));
        if x !in done {
          WaitingFirst(v, start, done, queue, path, x);
          LeqTransitive(WalkKey(v, path[queue[0]]), WalkKey(v, path[x]), WalkKey(v, q));
        }
      } else {
        LeqTransitive(WalkKey(v, path[queue[0]]), WalkKey(v, q'), WalkKey(v, q));
      }
    }
  }

  /** The walk recorded for an expanded node, or for the queue's head, is the first one to it. */
  lemma RecordedFirst(v: View, start: string, done: set<string>, queue: seq<string>,
                      path: map<string, seq<nat>>, bound: Option<int>, x: string)
    requires Search(v, start, done, queue, path) && Covered(v, done, path, bound)
    requires x in path && (x in done || (queue != [] && x == queue[0])) && InReach(|path[x]|, bound)
    ensures FirstWalk(v, start, path[x], x)
  {
    forall q | Walk(v, start, q, x) ensures Leq(WalkKey(v, path[x]), WalkKey(v, q)) {
      if InReach(|q|, bound) {
        Best(v, start, done, queue, path, bound, q, x);
        if queue != [] && Leq(WalkKey(v, path[queue[0]]), WalkKey(v, q)) {
          LeqTransitive(WalkKey(v, path[x]), WalkKey(v, path[queue[0]]), WalkKey(v, q));
        }
      } else {
        Longer(v, path[x], q);
      }
    }
  }

  /** Every continuation of the queue's head comes after everything discovered. */
  lemma HeadAhead(v: View, start: string, done: set<string>, queue: seq<string>, path: map<string, seq<nat>>, e: nat)
    requires Search(v, start, done, queue, path) && queue != []
    requires v.Has(e) && v.Near(e) == queue[0]
    ensures Ahead(v, path, queue[0], e)
  {
    var u := queue[0];
    forall n | n in path ensures Less(WalkKey(v, path[n]), WalkKey(v, path[u] + [e])) {
      if n == start {
        Longer(v, path[n], path[u] + [e]);
      } else {
        assert Parented(v, done, path, n);
        var f := path[n][|path[n]| - 1];
        assert Earlier(v, path, v.Near(f), u);
        ExtendLess(v, path[v.Near(f)], path[u], f, e);
      }
    }
  }

  /** Taking the head off the queue. */
  lemma Pop(v: View, start: string, done: set<string>, queue: seq<string>, path: map<string, seq<nat>>)
    requires Search(v, start, done, queue, path) && queue != []
    ensures Search(v, start, done + {queue[0]}, queue[1..], path)
  {
    var u := queue[0];
    assert queue == [u] + queue[1..];
    forall n | n in path && n != start ensures Parented(v, done + {u}, path, n) {
      assert Parented(v, done, path, n);
    }
    assert InOrder(v, done + {u}, queue[1..], path);
  }

  /** Recording an undiscovered node y through edge e of the expanded node u. */
  lemma Discover(v: View, start: string, done: set<string>, queue: seq<string>, path: map<string, seq<nat>>,
                 u: string, e: nat)
    requires Search(v, start, done, queue, path) && u in done && v.Has(e) && v.Near(e) == u
    requires u in path && v.Far(e) !in path && Ahead(v, path, u, e)
    ensures Search(v, start, done, queue + [v.Far(e)], path[v.Far(e) := path[u] + [e]])
  {
    hide Less;
    hide WalkKey;
    hide InOrder;
    var y := v.Far(e);
    var path' := path[y := path[u] + [e]];
    WalkSnoc(v, start, path[u], e);
    DiscoverInOrder(v, start, done, queue, path, u, e);
    DiscoverPartition(done, queue, path, y, path[u] + [e]);
    forall n | n in path' && n != start ensures Parented(v, done, path', n) {
      if n != y { assert Parented(v, done, path, n); }
    }
  }

  lemma DiscoverPartition(done: set<string>, queue: seq<string>, path: map<string, seq<nat>>, y: string, p: seq<nat>)
    requires Partition(done, queue, path) && y !in path
    ensures Partition(done, queue + [y], path[y := p])
  {
  }

  lemma DiscoverInOrder(v: View, start: string, done: set<string>, queue: seq<string>, path: map<string, seq<nat>>,
                        u: string, e: nat)
    requires Search(v, start, done, queue, path) && v.Has(e) && u in path
    requires v.Far(e) !in path && Ahead(v, path, u, e)
    ensures InOrder(v, done, queue + [v.Far(e)], path[v.Far(e) := path[u] + [e]])
  {
    var y := v.Far(e);
    var path', queue' := path[y := path[u] + [e]], queue + [y];
    forall m, n | Earlier(v, path, m, n) ensures Earlier(v, path', m, n) {}
    forall n | n in path ensures Earlier(v, path', n, y) {}
    forall i, j | 0 <= i < j < |queue'| ensures Earlier(v, path', queue'[i], queue'[j]) {
      if j < |queue| { assert Earlier(v, path, queue[i], queue[j]); }
    }
  }

  /** Later continuations of u stay ahead of the node just recorded. */
  lemma StillAhead(v: View, path: map<string, seq<nat>>, u: string, e: nat, f: nat)
    requires u in path && v.Has(e) && v.Has(f) && v.Far(e) !in path
    requires Less(v.StepKey(e), v.StepKey(f)) && Ahead(v, path, u, f)
    ensures Ahead(v, path[v.Far(e) := path[u] + [e]], u, f)
  {
    ExtendBy(v, path[u], e, f);
  }

  /** What has been reached stays reached when a new node is recorded. */
  lemma StillCovered(v: View, start: string, done: set<string>, queue: seq<string>, path: map<string, seq<nat>>,
                     expanded: set<string>, bound: Option<int>, y: string, p: seq<nat>)
    requires Search(v, start, done, queue, path) && expanded <= done && y !in path
    requires Covered(v, expanded, path, bound)
    ensures Covered(v, expanded, path[y := p], bound)
  {
    forall e | v.Has(e) && v.Near(e) in expanded && v.Near(e) in path[y := p] &&
               Expands(|path[y := p][v.Near(e)]|, bound)
      ensures Reaches(v, path[y := p], v.Near(e), e)
    {
      assert Reaches(v, path, v.Near(e), e);
    }
  }
}
