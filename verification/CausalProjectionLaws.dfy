/** What the two searches of CausalProjection promise together. */
module CausalProjectionLaws {
  import opened Prelude
  import opened Keys
  import opened CausalGraph
  import opened CausalSearch
  import opened CausalProjection

  // ----- the edge list is a set: its order does not matter

  ghost predicate DistinctIds(edges: seq<Edge>)
  {
    forall i, j :: 0 <= i < j < |edges| ==> edges[i].id != edges[j].id
  }

  ghost predicate SameEdges(edges: seq<Edge>, edges': seq<Edge>)
  {
    forall e :: e in edges <==> e in edges'
  }

  /** The edges a walk is made of. */
  function EdgesAt(edges: seq<Edge>, p: seq<nat>): (r: seq<Edge>)
    requires forall i :: 0 <= i < |p| ==> p[i] < |edges|
    ensures |r| == |p| && forall i :: 0 <= i < |p| ==> r[i] == edges[p[i]]
  {
    seq(|p|, i requires 0 <= i < |p| => edges[p[i]])
  }

  /** The walk of the second list that uses the same edges. */
  ghost function Transport(edges: seq<Edge>, edges': seq<Edge>, p: seq<nat>): (r: seq<nat>)
    requires SameEdges(edges, edges') && forall i :: 0 <= i < |p| ==> p[i] < |edges|
    ensures |r| == |p| && forall i :: 0 <= i < |p| ==> r[i] < |edges'| && edges'[r[i]] == edges[p[i]]
  {
    if p == [] then []
    else
      assert edges[p[0]] in edges;
      var k :| 0 <= k < |edges'| && edges'[k] == edges[p[0]];
      [k] + Transport(edges, edges', p[1..])
  }

  lemma {:induction false} TransportWalk(edges: seq<Edge>, edges': seq<Edge>, forward: bool, a: string, p: seq<nat>,
                                         b: string)
    requires SameEdges(edges, edges') && Walk(View(edges, forward), a, p, b)
    requires forall i :: 0 <= i < |p| ==> p[i] < |edges|
    ensures Walk(View(edges', forward), a, Transport(edges, edges', p), b)
  {
    WalkEdges(View(edges, forward), a, p, b);
    EdgesWalk(View(edges', forward), a, Transport(edges, edges', p), b);
  }

  /** With distinct ids, which of two walks comes first does not depend on where the list keeps their edges. */
  lemma {:induction false} TransportLess(edges: seq<Edge>, edges': seq<Edge>, forward: bool, p: seq<nat>, q: seq<nat>,
                                         p': seq<nat>, q': seq<nat>)
    requires DistinctIds(edges) && DistinctIds(edges')
    requires |p| == |p'| && |q| == |q'|
    requires forall i :: 0 <= i < |p| ==> p[i] < |edges| && p'[i] < |edges'| && edges[p[i]] == edges'[p'[i]]
    requires forall i :: 0 <= i < |q| ==> q[i] < |edges| && q'[i] < |edges'| && edges[q[i]] == edges'[q'[i]]
    requires LessAll(StepKeys(View(edges, forward), p), StepKeys(View(edges, forward), q))
    ensures LessAll(StepKeys(View(edges', forward), p'), StepKeys(View(edges', forward), q'))
    decreases |p|
  {
    var v, v' := View(edges, forward), View(edges', forward);
    var P, Q, P', Q' := StepKeys(v, p), StepKeys(v, q), StepKeys(v', p'), StepKeys(v', q');
    if p != [] {
      StepLess(edges, edges', forward, p[0], q[0], p'[0], q'[0]);
      assert P[1..] == StepKeys(v, p[1..]) && Q[1..] == StepKeys(v, q[1..]);
      assert P'[1..] == StepKeys(v', p'[1..]) && Q'[1..] == StepKeys(v', q'[1..]);
      if !Less(P[0], Q[0]) { TransportLess(edges, edges', forward, p[1..], q[1..], p'[1..], q'[1..]); }
    }
  }

  lemma StepLess(edges: seq<Edge>, edges': seq<Edge>, forward: bool, e: nat, f: nat, e': nat, f': nat)
    requires DistinctIds(edges) && DistinctIds(edges')
    requires e < |edges| && f < |edges| && e' < |edges'| && f' < |edges'|
    requires edges[e] == edges'[e'] && edges[f] == edges'[f']
    ensures var v, v' := View(edges, forward), View(edges', forward);
            && (Less(v.StepKey(e), v.StepKey(f)) ==> Less(v'.StepKey(e'), v'.StepKey(f')))
            && (v.StepKey(e) == v.StepKey(f) ==> v'.StepKey(e') == v'.StepKey(f'))
  {
    var v := View(edges, forward);
    StepKeyInjective(v, e, f);
    if e == f {
      assert e' == f';
      Irreflexive(v.StepKey(e));
    } else {
      var x, y := edges[e], edges[f];
      assert x.id != y.id;
      FourParts(Text(v.Far(e)), Text(x.relation), Text(x.id), Num(e), Text(v.Far(f)), Text(y.relation), Text(y.id),
                Num(f));
      FourParts(Text(v.Far(e)), Text(x.relation), Text(x.id), Num(e'), Text(v.Far(f)), Text(y.relation), Text(y.id),
                Num(f'));
    }
  }

  lemma {:induction false} FourParts(a: Key, b: Key, c: Key, d: Key, a': Key, b': Key, c': Key, d': Key)
    ensures Less(Tuple([a, b, c, d]), Tuple([a', b', c', d'])) <==>
            Less(a, a') || (a == a' && (Less(b, b') || (b == b' && (Less(c, c') || (c == c' && Less(d, d'))))))
  {
    assert [a, b, c, d][1..] == [b, c, d] && [a', b', c', d'][1..] == [b', c', d'];
    assert [b, c, d][1..] == [c, d] && [b', c', d'][1..] == [c', d'];
    assert [c, d][1..] == [d] && [c', d'][1..] == [d'];
    assert [d][1..] == [] && [d'][1..] == [] && !LessAll([], []);
    assert LessAll([d], [d']) <==> Less(d, d');
    assert LessAll([c, d], [c', d']) <==> Less(c, c') || (c == c' && LessAll([d], [d']));
    assert LessAll([b, c, d], [b', c', d']) <==> Less(b, b') || (b == b' && LessAll([c, d], [c', d']));
  }

  /** The first walk, along the edges or against them, does not depend on the order of a list with distinct ids. */
  lemma OrderIndependent(edges: seq<Edge>, edges': seq<Edge>, forward: bool, source: string, target: string,
                         p: seq<nat>, p': seq<nat>)
    requires SameEdges(edges, edges') && DistinctIds(edges) && DistinctIds(edges')
    requires FirstWalk(View(edges, forward), source, p, target)
    requires FirstWalk(View(edges', forward), source, p', target)
    ensures forall i :: 0 <= i < |p| ==> p[i] < |edges|
    ensures forall i :: 0 <= i < |p'| ==> p'[i] < |edges'|
    ensures EdgesAt(edges, p) == EdgesAt(edges', p')
  {
    hide LessAll;
    hide Walk;
    hide WalkKey;
    hide Less;
    hide EdgesAt;
    var v, v' := View(edges, forward), View(edges', forward);
    WalkEdges(v, source, p, target);
    WalkEdges(v', source, p', target);
    var t, t' := Transport(edges, edges', p), Transport(edges', edges, p');
    TransportWalk(edges, edges', forward, source, p, target);
    TransportWalk(edges', edges, forward, source, p', target);
    assert Leq(WalkKey(v, p), WalkKey(v, t')) && Leq(WalkKey(v', p'), WalkKey(v', t));
    LeqLength(v, p, t');
    LeqLength(v', p', t);
    WalkKeyLess(v, p, t');
    if Less(WalkKey(v, p), WalkKey(v, t')) {
      TransportLess(edges, edges', forward, p, t', t, p');
      WalkKeyLess(v', t, p');
      LeqAntisymmetric(WalkKey(v', p'), WalkKey(v', t));
    }
    if WalkKey(v, p) == WalkKey(v, t') {
      WalkKeyInjective(v, source, p, t', target, target);
    } else {
      WalkKeyInjective(v', source, p', t, target, target);
    }
  }

  // ----- the reverse search

  /** Each antecedent's path has exactly the length of the shortest path from it. */
  lemma CauseShortest(edges: seq<Edge>, target: string, bound: Option<int>, r: Route, p: seq<nat>)
    requires Cause(edges, target, bound, r) && FirstWalk(View(edges, true), r.nodes[0], p, target)
    ensures |r.path| == |p|
  {
    var v, w := View(edges, true), View(edges, false);
    WalkReversed(edges, true, r.nodes[0], p, target);
    WalkKeyLess(v, p, r.path);
    WalkKeyLess(w, Reversed(r.path), Reversed(p));
    assert Leq(WalkKey(v, p), WalkKey(v, r.path));
    assert Leq(WalkKey(w, Reversed(r.path)), WalkKey(w, Reversed(p)));
    if |p| > |r.path| { Longer(v, r.path, p); LeqAntisymmetric(WalkKey(v, p), WalkKey(v, r.path)); }
    if |r.path| > |p| {
      Longer(w, Reversed(p), Reversed(r.path));
      LeqAntisymmetric(WalkKey(w, Reversed(p)), WalkKey(w, Reversed(r.path)));
    }
  }

  /** An antecedent is listed exactly when some real chain of at most max_depth edges leads from it to the target. */
  lemma {:induction false} ListedIffReaches(edges: seq<Edge>, target: string, bound: Option<int>, rs: seq<Route>,
                                            s: string)
    requires CauseList(edges, target, bound, rs)
    ensures Lists(rs, s) <==>
            s != target && exists p: seq<nat> :: Walk(View(edges, true), s, p, target) && InReach(|p|, bound)
  {
    hide Less;
    hide Walk;
    hide WalkKey;
    hide FirstWalk;
    if Lists(rs, s) {
      var i :| 0 <= i < |rs| && rs[i].nodes != [] && rs[i].nodes[0] == s;
      assert Cause(edges, target, bound, rs[i]);
      assert Walk(View(edges, true), s, rs[i].path, target) && InReach(|rs[i].path|, bound);
    }
    if s != target && exists p: seq<nat> :: Walk(View(edges, true), s, p, target) && InReach(|p|, bound) {
      var p: seq<nat> :| Walk(View(edges, true), s, p, target) && InReach(|p|, bound);
      WalkReversed(edges, true, s, p, target);
      assert InReach(|Reversed(p)|, bound);
    }
  }

  lemma ListedOnce(edges: seq<Edge>, target: string, bound: Option<int>, rs: seq<Route>, i: nat, j: nat)
    requires CauseList(edges, target, bound, rs) && i < |rs| && j < |rs| && rs[i].nodes[0] == rs[j].nodes[0]
    ensures i == j
  {
    CauseUnique(edges, target, bound, bound, rs[i], rs[j]);
    Irreflexive(RouteKey(rs[i]));
  }

  /** The entry of an antecedent is the same whatever the depth bound. */
  lemma CauseUnique(edges: seq<Edge>, target: string, bound: Option<int>, bound': Option<int>, r: Route, r': Route)
    requires Cause(edges, target, bound, r) && Cause(edges, target, bound', r') && r.nodes[0] == r'.nodes[0]
    ensures r == r'
  {
    FirstWalkUnique(View(edges, false), target, Reversed(r.path), Reversed(r'.path), r.nodes[0]);
    ReversedTwice(r.path);
    ReversedTwice(r'.path);
  }

  ghost predicate Shallower(bound: Option<int>, bound': Option<int>)
  {
    forall n: nat :: InReach(n, bound) ==> InReach(n, bound')
  }

  /** Bounding the depth yields precisely the entries of the deeper search within the bound, as its prefix. */
  lemma BoundIsPrefix(edges: seq<Edge>, target: string, bound: Option<int>, bound': Option<int>,
                      rs: seq<Route>, rs': seq<Route>)
    requires Shallower(bound, bound')
    requires CauseList(edges, target, bound, rs) && CauseList(edges, target, bound', rs')
    ensures |rs| <= |rs'| && rs == rs'[..|rs|]
    ensures forall i :: |rs| <= i < |rs'| ==> !InReach(|rs'[i].path|, bound)
  {
    hide Less;
    hide Walk;
    hide WalkKey;
    hide FirstWalk;
    hide RouteKey;
    hide InReach;
    hide Cause;
    PrefixUpTo(edges, target, bound, bound', rs, rs', |rs|);
    forall i | |rs| <= i < |rs'| ensures !InReach(|rs'[i].path|, bound) {
      if InReach(|rs'[i].path|, bound) {
        var j := EntryWithin(edges, target, bound, bound', rs, rs', i);
        assert rs'[j] == rs'[i];
        Irreflexive(RouteKey(rs'[i]));
      }
    }
  }

  /** An entry of the deeper search within the bound is an entry of the bounded one. */
  lemma EntryWithin(edges: seq<Edge>, target: string, bound: Option<int>, bound': Option<int>,
                    rs: seq<Route>, rs': seq<Route>, i: nat) returns (j: nat)
    requires CauseList(edges, target, bound, rs) && CauseList(edges, target, bound', rs')
    requires i < |rs'| && InReach(|rs'[i].path|, bound)
    ensures j < |rs| && rs[j] == rs'[i]
  {
    var s := rs'[i].nodes[0];
    assert Cause(edges, target, bound', rs'[i]);
    assert Walk(View(edges, false), target, Reversed(rs'[i].path), s);
    assert Lists(rs, s);
    j :| 0 <= j < |rs| && rs[j].nodes != [] && rs[j].nodes[0] == s;
    CauseUnique(edges, target, bound, bound', rs[j], rs'[i]);
  }

  lemma CauseReach(edges: seq<Edge>, target: string, bound: Option<int>, bound': Option<int>, r: Route)
    requires Cause(edges, target, bound, r) && Shallower(bound, bound')
    ensures InReach(|r.path|, bound) && InReach(|r.path|, bound')
  {
  }

  /** The list is nearest first, and by the source's id among equally near ones. */
  lemma CausesInOrder(edges: seq<Edge>, target: string, bound: Option<int>, rs: seq<Route>, i: nat, j: nat)
    requires CauseList(edges, target, bound, rs) && i < j < |rs|
    ensures rs[i].nodes != [] && rs[j].nodes != []
    ensures || |rs[i].path| < |rs[j].path|
            || (|rs[i].path| == |rs[j].path| && TextLess(rs[i].nodes[0], rs[j].nodes[0]))
  {
    hide Walk;
    hide FirstWalk;
    assert Cause(edges, target, bound, rs[i]) && Cause(edges, target, bound, rs[j]);
    var P, Q := RouteKey(rs[i]).parts, RouteKey(rs[j]).parts;
    assert P[0] == Num(|rs[i].path|) && P[1] == Text(rs[i].nodes[0]);
    assert Q[0] == Num(|rs[j].path|) && Q[1] == Text(rs[j].nodes[0]);
    assert LessAll(P, Q);
    FirstDifference(P, Q);
  }

  lemma NearerReach(r: Route, r': Route, bound: Option<int>)
    requires Less(RouteKey(r), RouteKey(r')) && InReach(|r'.path|, bound)
    ensures InReach(|r.path|, bound)
  {
    var P, P' := RouteKey(r).parts, RouteKey(r').parts;
    assert LessAll(P, P');
    assert Less(P[0], P'[0]) || P[0] == P'[0];
    assert P[0] == Num(|r.path|) && P'[0] == Num(|r'.path|);
    assert |r.path| <= |r'.path|;
  }

  lemma {:induction false} PrefixUpTo(edges: seq<Edge>, target: string, bound: Option<int>, bound': Option<int>,
                                      rs: seq<Route>, rs': seq<Route>, k: nat)
    requires Shallower(bound, bound') && k <= |rs|
    requires CauseList(edges, target, bound, rs) && CauseList(edges, target, bound', rs')
    ensures k <= |rs'| && rs[..k] == rs'[..k]
  {
    hide Less;
    hide Walk;
    hide WalkKey;
    hide FirstWalk;
    hide RouteKey;
    hide InReach;
    hide Cause;
    if k > 0 {
      PrefixUpTo(edges, target, bound, bound', rs, rs', k - 1);
      var r := rs[k - 1];
      CauseReach(edges, target, bound, bound', r);
      var i := EntryWithin(edges, target, bound', bound, rs', rs, k - 1);
      if i < k - 1 {
        assert rs'[i] == rs[i];
        Irreflexive(RouteKey(r));
      } else if i > k - 1 {
        // the entry of the deeper list at k - 1 would be nearer than r, hence listed before it
        var r' := rs'[k - 1];
        assert Less(RouteKey(r'), RouteKey(r));
        NearerReach(r', r, bound);
        var j := EntryWithin(edges, target, bound, bound', rs, rs', k - 1);
        if j < k - 1 {
          assert rs'[j] == rs[j];
          Irreflexive(RouteKey(r'));
        } else if j > k - 1 {
          Transitive(RouteKey(r), RouteKey(r'), RouteKey(r));
          Irreflexive(RouteKey(r));
        } else {
          Irreflexive(RouteKey(r));
        }
      }
      assert rs[..k] == rs[..k - 1] + [r] && rs'[..k] == rs'[..k - 1] + [rs'[k - 1]];
    }
  }

  // ----- the antecedents do not depend on the order of the edge list either

  /** The same edges, and so the same nodes, wherever the two lists keep them. */
  ghost predicate SameRoute(edges: seq<Edge>, edges': seq<Edge>, r: Route, r': Route)
  {
    && (forall i :: 0 <= i < |r.path| ==> r.path[i] < |edges|)
    && (forall i :: 0 <= i < |r'.path| ==> r'.path[i] < |edges'|)
    && r.nodes == r'.nodes && EdgesAt(edges, r.path) == EdgesAt(edges', r'.path)
  }

  lemma SameEntry(edges: seq<Edge>, edges': seq<Edge>, target: string, bound: Option<int>, r: Route, r': Route)
    requires SameEdges(edges, edges') && DistinctIds(edges) && DistinctIds(edges')
    requires Cause(edges, target, bound, r) && Cause(edges', target, bound, r') && r.nodes[0] == r'.nodes[0]
    ensures SameRoute(edges, edges', r, r')
  {
    hide FirstWalk;
    hide Walk;
    var p, p' := Reversed(r.path), Reversed(r'.path);
    OrderIndependent(edges, edges', false, target, r.nodes[0], p, p');
    var n := |r.path|;
    assert |EdgesAt(edges, p)| == n && |EdgesAt(edges', p')| == |r'.path|;
    forall i | 0 <= i < n ensures edges[r.path[i]] == edges'[r'.path[i]] {
      assert EdgesAt(edges, p)[n - 1 - i] == EdgesAt(edges', p')[n - 1 - i];
      assert p[n - 1 - i] == r.path[i] && p'[n - 1 - i] == r'.path[i];
    }
  }

  /** The entry of one list is listed for the other. */
  lemma {:induction false} FindEntry(edges: seq<Edge>, edges': seq<Edge>, target: string, bound: Option<int>,
                                     rs: seq<Route>, rs': seq<Route>, i: nat) returns (j: nat)
    requires SameEdges(edges, edges') && DistinctIds(edges) && DistinctIds(edges')
    requires CauseList(edges, target, bound, rs) && CauseList(edges', target, bound, rs') && i < |rs|
    ensures j < |rs'| && SameRoute(edges, edges', rs[i], rs'[j])
  {
    hide Less;
    hide FirstWalk;
    var r := rs[i];
    assert Cause(edges, target, bound, r);
    var s := r.nodes[0];
    WalkEdges(View(edges, true), s, r.path, target);
    TransportWalk(edges, edges', true, s, r.path, target);
    var t := Transport(edges, edges', r.path);
    WalkReversed(edges', true, s, t, target);
    assert |Reversed(t)| == |r.path|;
    hide Walk;
    assert Lists(rs', s);
    j :| 0 <= j < |rs'| && rs'[j].nodes != [] && rs'[j].nodes[0] == s;
    SameEntry(edges, edges', target, bound, r, rs'[j]);
  }

  function RouteKeys(rs: seq<Route>): (r: seq<Key>)
    ensures |r| == |rs| && forall i :: 0 <= i < |rs| ==> r[i] == RouteKey(rs[i])
  {
    seq(|rs|, i requires 0 <= i < |rs| => RouteKey(rs[i]))
  }

  lemma KeysWithin(edges: seq<Edge>, edges': seq<Edge>, target: string, bound: Option<int>, rs: seq<Route>,
                   rs': seq<Route>)
    requires SameEdges(edges, edges') && DistinctIds(edges) && DistinctIds(edges')
    requires CauseList(edges, target, bound, rs) && CauseList(edges', target, bound, rs')
    ensures forall k :: k in RouteKeys(rs) ==> k in RouteKeys(rs')
  {
    hide CauseList;
    hide DistinctIds;
    hide SameEdges;
    forall k | k in RouteKeys(rs) ensures k in RouteKeys(rs') {
      var i :| 0 <= i < |rs| && RouteKeys(rs)[i] == k;
      var j := FindEntry(edges, edges', target, bound, rs, rs', i);
      assert |EdgesAt(edges, rs[i].path)| == |EdgesAt(edges', rs'[j].path)|;
      assert RouteKeys(rs')[j] == k;
    }
  }

  /** `reverse_shortest_paths` lists the same routes, in the same order, whatever the order of an edge list is. */
  lemma CausesIgnoreOrder(edges: seq<Edge>, edges': seq<Edge>, target: string, bound: Option<int>, rs: seq<Route>,
                          rs': seq<Route>)
    requires SameEdges(edges, edges') && DistinctIds(edges) && DistinctIds(edges')
    requires CauseList(edges, target, bound, rs) && CauseList(edges', target, bound, rs')
    ensures |rs| == |rs'| && forall i :: 0 <= i < |rs| ==> SameRoute(edges, edges', rs[i], rs'[i])
  {
    hide Cause;
    hide Less;
    hide DistinctIds;
    hide Walk;
    assert SameEdges(edges', edges);
    hide SameEdges;
    KeysWithin(edges, edges', target, bound, rs, rs');
    KeysWithin(edges', edges, target, bound, rs', rs);
    StrictUnique(RouteKeys(rs), RouteKeys(rs'));
    forall i | 0 <= i < |rs| ensures SameRoute(edges, edges', rs[i], rs'[i]) {
      var j := FindEntry(edges, edges', target, bound, rs, rs', i);
      SameKey(edges, edges', rs[i], rs'[j]);
      assert RouteKey(rs'[j]) == RouteKey(rs[i]) == RouteKeys(rs)[i] == RouteKey(rs'[i]);
      Irreflexive(RouteKey(rs'[i]));
    }
  }

  lemma SameKey(edges: seq<Edge>, edges': seq<Edge>, r: Route, r': Route)
    requires SameRoute(edges, edges', r, r')
    ensures RouteKey(r) == RouteKey(r')
  {
    assert |EdgesAt(edges, r.path)| == |EdgesAt(edges', r'.path)|;
  }

  lemma FirstIn(xs: seq<Key>)
    ensures xs != [] ==> xs[0] in xs
  {
  }

  /** Two strictly sorted sequences of the same keys are equal. */
  lemma {:induction false} StrictUnique(xs: seq<Key>, ys: seq<Key>)
    requires forall i, j :: 0 <= i < j < |xs| ==> Less(xs[i], xs[j])
    requires forall i, j :: 0 <= i < j < |ys| ==> Less(ys[i], ys[j])
    requires forall k :: k in xs <==> k in ys
    ensures xs == ys
    decreases |xs|
  {
    hide Less;
    FirstIn(xs);
    FirstIn(ys);
    if xs != [] {
      var m, n := |xs| - 1, |ys| - 1;
      var x, y := xs[m], ys[n];
      assert x in ys && y in xs;
      var i :| 0 <= i <= m && xs[i] == y;
      var j :| 0 <= j <= n && ys[j] == x;
      if x != y {
        Transitive(x, y, x);
        Irreflexive(x);
      }
      forall k ensures k in xs[..m] <==> k in ys[..n] {
        if k in xs[..m] {
          var a :| 0 <= a < m && xs[a] == k;
          if k == x { Irreflexive(x); }
          assert k in ys;
        }
        if k in ys[..n] {
          var a :| 0 <= a < n && ys[a] == k;
          if k == y { Irreflexive(y); }
          assert k in xs;
        }
      }
      StrictUnique(xs[..m], ys[..n]);
      assert xs == xs[..m] + [x] && ys == ys[..n] + [y];
    }
  }
}
