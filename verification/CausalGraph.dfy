/**
  Causal edges, the walks a search can take along them, and the order the
  searches break ties in.
  An edge is named by its position in the edge list, because the searches hand
  around references to list entries.  A search runs along the edges (from
  source to target) or against them; `View.forward` says which.
 */
module CausalGraph {
  import opened Prelude
  import opened Keys

  datatype Strength = Weak | Moderate | Strong

  /** The `evidence` object of an edge: what backs it. */
  datatype Backing = Backing(experiments: seq<string>, claims: seq<string>)

  datatype Edge = Edge(id: string, source: string, target: string, relation: string,
                       strength: Strength, evidence: Option<Backing>)

  datatype View = View(edges: seq<Edge>, forward: bool) {
    predicate Has(i: nat) { i < |edges| }

    /** The end of edge i a search stands on, and the end it reaches. */
    function Near(i: nat): string
      requires Has(i)
    { if forward then edges[i].source else edges[i].target }

    function Far(i: nat): string
      requires Has(i)
    { if forward then edges[i].target else edges[i].source }

    /** Adjacency is sorted by far end, relation and id; the sort is stable, so the list position decides last. */
    function StepKey(i: nat): Key
    {
      if Has(i) then Tuple([Text(Far(i)), Text(edges[i].relation), Text(edges[i].id), Num(i)]) else Tuple([])
    }
  }

  /** p leads from a to b, one edge after the other. */
  predicate Walk(v: View, a: string, p: seq<nat>, b: string)
    decreases |p|
  {
    if p == [] then a == b
    else
      var last := p[|p| - 1];
      v.Has(last) && v.Far(last) == b && Walk(v, a, p[..|p| - 1], v.Near(last))
  }

  function StepKeys(v: View, p: seq<nat>): (r: seq<Key>)
    ensures |r| == |p|
  {
    seq(|p|, i requires 0 <= i < |p| => v.StepKey(p[i]))
  }

  /** Walks are compared by length first, then step by step. */
  function WalkKey(v: View, p: seq<nat>): Key
  {
    Tuple([Num(|p|)] + StepKeys(v, p))
  }

  /** p is the first of all walks from a to b: none is shorter, and among the shortest none precedes it. */
  ghost predicate FirstWalk(v: View, a: string, p: seq<nat>, b: string)
  {
    Walk(v, a, p, b) && forall q :: Walk(v, a, q, b) ==> Leq(WalkKey(v, p), WalkKey(v, q))
  }

  // ----- the order on walks

  lemma WalkKeyLess(v: View, p: seq<nat>, q: seq<nat>)
    ensures Less(WalkKey(v, p), WalkKey(v, q)) <==>
            |p| < |q| || (|p| == |q| && LessAll(StepKeys(v, p), StepKeys(v, q)))
  {
    var P, Q := [Num(|p|)] + StepKeys(v, p), [Num(|q|)] + StepKeys(v, q);
    assert P[1..] == StepKeys(v, p) && Q[1..] == StepKeys(v, q);
    assert LessAll(P, Q) <==> Less(P[0], Q[0]) || (P[0] == Q[0] && LessAll(P[1..], Q[1..]));
  }

  /** Two real edges compare by the node they reach, then relation, then id, then place in the list. */
  predicate StepBefore(v: View, i: nat, j: nat)
    requires v.Has(i) && v.Has(j)
  {
    || TextLess(v.Far(i), v.Far(j))
    || (v.Far(i) == v.Far(j) &&
        (|| TextLess(v.edges[i].relation, v.edges[j].relation)
         || (v.edges[i].relation == v.edges[j].relation &&
             (|| TextLess(v.edges[i].id, v.edges[j].id)
              || (v.edges[i].id == v.edges[j].id && i < j)))))
  }

  lemma StepLessMeans(v: View, i: nat, j: nat)
    requires v.Has(i) && v.Has(j)
    ensures Less(v.StepKey(i), v.StepKey(j)) <==> StepBefore(v, i, j)
    ensures v.StepKey(i) == v.StepKey(j) ==> i == j
  {
    var P, Q := v.StepKey(i).parts, v.StepKey(j).parts;
    assert P[0] == Text(v.Far(i)) && P[1] == Text(v.edges[i].relation);
    assert P[2] == Text(v.edges[i].id) && P[3] == Num(i);
    assert Q[0] == Text(v.Far(j)) && Q[1] == Text(v.edges[j].relation);
    assert Q[2] == Text(v.edges[j].id) && Q[3] == Num(j);
    FirstDifference(P, Q);
    hide LessAll;
    hide TextLess;
  }

  ghost predicate AllReal(v: View, p: seq<nat>)
  {
    forall k :: 0 <= k < |p| ==> v.Has(p[k])
  }

  /** The shorter walk, and of two of one length the one with the earlier step where they first differ. */
  ghost predicate WalkBefore(v: View, p: seq<nat>, q: seq<nat>)
    requires AllReal(v, p) && AllReal(v, q)
  {
    || |p| < |q|
    || (|p| == |q| && exists k :: 0 <= k < |p| && StepBefore(v, p[k], q[k]) && forall l :: 0 <= l < k ==> p[l] == q[l])
  }

  lemma WalkLessMeans(v: View, p: seq<nat>, q: seq<nat>)
    requires AllReal(v, p) && AllReal(v, q)
    ensures Less(WalkKey(v, p), WalkKey(v, q)) <==> WalkBefore(v, p, q)
  {
    WalkKeyLess(v, p, q);
    hide WalkKey;
    hide LessAll;
    hide View.StepKey;
    hide StepBefore;
    if |p| == |q| {
      var P, Q := StepKeys(v, p), StepKeys(v, q);
      FirstDifference(P, Q);
      forall k | 0 <= k < |p|
        ensures Less(P[k], Q[k]) <==> StepBefore(v, p[k], q[k])
        ensures P[k] == Q[k] <==> p[k] == q[k] {
        StepLessMeans(v, p[k], q[k]);
      }
    }
  }

  lemma {:induction false} LessAllAppend(p: seq<Key>, q: seq<Key>, a: Key, b: Key)
    requires |p| == |q| && LessAll(p, q)
    ensures LessAll(p + [a], q + [b])
    decreases p
  {
    assert (p + [a])[1..] == p[1..] + [a] && (q + [b])[1..] == q[1..] + [b];
    if !Less(p[0], q[0]) { LessAllAppend(p[1..], q[1..], a, b); }
  }

  lemma {:induction false} LessAllLast(p: seq<Key>, a: Key, b: Key)
    requires Less(a, b)
    ensures LessAll(p + [a], p + [b])
    decreases p
  {
    if p != [] {
      assert (p + [a])[1..] == p[1..] + [a] && (p + [b])[1..] == p[1..] + [b];
      LessAllLast(p[1..], a, b);
    }
  }

  lemma StepKeysAppend(v: View, p: seq<nat>, e: nat)
    ensures StepKeys(v, p + [e]) == StepKeys(v, p) + [v.StepKey(e)]
  {
  }

  /** A strictly smaller walk stays smaller whatever one step is added to either. */
  lemma ExtendLess(v: View, p: seq<nat>, q: seq<nat>, e: nat, f: nat)
    requires Less(WalkKey(v, p), WalkKey(v, q))
    ensures Less(WalkKey(v, p + [e]), WalkKey(v, q + [f]))
  {
    WalkKeyLess(v, p, q);
    WalkKeyLess(v, p + [e], q + [f]);
    StepKeysAppend(v, p, e);
    StepKeysAppend(v, q, f);
    if |p| == |q| { LessAllAppend(StepKeys(v, p), StepKeys(v, q), v.StepKey(e), v.StepKey(f)); }
  }

  lemma ExtendBy(v: View, p: seq<nat>, e: nat, f: nat)
    requires Less(v.StepKey(e), v.StepKey(f))
    ensures Less(WalkKey(v, p + [e]), WalkKey(v, p + [f]))
  {
    WalkKeyLess(v, p + [e], p + [f]);
    StepKeysAppend(v, p, e);
    StepKeysAppend(v, p, f);
    LessAllLast(StepKeys(v, p), v.StepKey(e), v.StepKey(f));
  }

  lemma Longer(v: View, p: seq<nat>, q: seq<nat>)
    requires |p| < |q|
    ensures Less(WalkKey(v, p), WalkKey(v, q))
  {
    WalkKeyLess(v, p, q);
  }

  lemma LeqLength(v: View, p: seq<nat>, q: seq<nat>)
    requires Leq(WalkKey(v, p), WalkKey(v, q))
    ensures |p| <= |q|
  {
    if |q| < |p| {
      Longer(v, q, p);
      LeqAntisymmetric(WalkKey(v, p), WalkKey(v, q));
      Irreflexive(WalkKey(v, p));
    }
  }

  /** Walks made of real edges are told apart by their keys, because a step key ends in the position. */
  lemma {:induction false} WalkKeyInjective(v: View, a: string, p: seq<nat>, q: seq<nat>, b: string, c: string)
    requires Walk(v, a, p, b) && Walk(v, a, q, c) && WalkKey(v, p) == WalkKey(v, q)
    ensures p == q
    decreases |p|
  {
    var P, Q := [Num(|p|)] + StepKeys(v, p), [Num(|q|)] + StepKeys(v, q);
    assert P == Q && |p| == |q|;
    if p != [] {
      var n := |p| - 1;
      var p', q' := p[..n], q[..n];
      StepKeysAppend(v, p', p[n]);
      StepKeysAppend(v, q', q[n]);
      assert p == p' + [p[n]] && q == q' + [q[n]];
      assert v.StepKey(p[n]) == P[n + 1] == Q[n + 1] == v.StepKey(q[n]);
      assert v.StepKey(p[n]).parts[3] == v.StepKey(q[n]).parts[3];
      assert StepKeys(v, p') == P[1..n + 1] == Q[1..n + 1] == StepKeys(v, q');
      WalkKeyInjective(v, a, p', q', v.Near(p[n]), v.Near(q[n]));
    }
  }

  lemma FirstWalkUnique(v: View, a: string, p: seq<nat>, q: seq<nat>, b: string)
    requires FirstWalk(v, a, p, b) && FirstWalk(v, a, q, b)
    ensures p == q
  {
    LeqAntisymmetric(WalkKey(v, p), WalkKey(v, q));
    WalkKeyInjective(v, a, p, q, b, b);
  }

  lemma {:induction false} WalkReal(v: View, a: string, p: seq<nat>, b: string)
    requires Walk(v, a, p, b)
    ensures AllReal(v, p)
    decreases |p|
  {
    if p != [] {
      WalkReal(v, a, p[..|p| - 1], v.Near(p[|p| - 1]));
      assert forall k :: 0 <= k < |p| - 1 ==> p[..|p| - 1][k] == p[k];
    }
  }

  /** The first of all walks comes before every other one. */
  lemma {:induction false} FirstMeans(v: View, a: string, p: seq<nat>, b: string)
    ensures FirstWalk(v, a, p, b) <==>
            && Walk(v, a, p, b) && AllReal(v, p)
            && forall q :: Walk(v, a, q, b) ==> AllReal(v, q) && (p == q || WalkBefore(v, p, q))
  {
    hide Less;
    hide WalkKey;
    if Walk(v, a, p, b) {
      WalkReal(v, a, p, b);
      forall q | Walk(v, a, q, b)
        ensures AllReal(v, q) && (Leq(WalkKey(v, p), WalkKey(v, q)) <==> p == q || WalkBefore(v, p, q)) {
        WalkReal(v, a, q, b);
        WalkLessMeans(v, p, q);
        if WalkKey(v, p) == WalkKey(v, q) { WalkKeyInjective(v, a, p, q, b, b); }
      }
    }
  }

  lemma {:induction false} WalkSnoc(v: View, a: string, p: seq<nat>, e: nat)
    requires v.Has(e) && Walk(v, a, p, v.Near(e))
    ensures Walk(v, a, p + [e], v.Far(e))
  {
    assert (p + [e])[..|p|] == p;
  }

  /** The nodes a walk from a passes, a first. */
  function NodesAlong(v: View, a: string, p: seq<nat>): (r: seq<string>)
    requires forall i :: 0 <= i < |p| ==> v.Has(p[i])
    ensures |r| == |p| + 1
  {
    [a] + seq(|p|, i requires 0 <= i < |p| => v.Far(p[i]))
  }

  lemma {:induction false} WalkEdges(v: View, a: string, p: seq<nat>, b: string)
    requires Walk(v, a, p, b)
    ensures forall i :: 0 <= i < |p| ==> v.Has(p[i])
    ensures forall i :: 0 < i < |p| ==> v.Near(p[i]) == v.Far(p[i - 1])
    ensures p != [] ==> v.Near(p[0]) == a && v.Far(p[|p| - 1]) == b
    ensures p == [] ==> a == b
    decreases |p|
  {
    if p != [] {
      var q := p[..|p| - 1];
      WalkEdges(v, a, q, v.Near(p[|p| - 1]));
      forall i | 0 <= i < |p| ensures v.Has(p[i]) && (0 < i ==> v.Near(p[i]) == v.Far(p[i - 1])) {
        if i < |q| { assert q[i] == p[i]; }
      }
      if q != [] { assert q[0] == p[0] && q[|q| - 1] == p[|p| - 2]; }
    }
  }

  lemma {:induction false} EdgesWalk(v: View, a: string, p: seq<nat>, b: string)
    requires forall i :: 0 <= i < |p| ==> v.Has(p[i])
    requires forall i :: 0 < i < |p| ==> v.Near(p[i]) == v.Far(p[i - 1])
    requires if p == [] then a == b else v.Near(p[0]) == a && v.Far(p[|p| - 1]) == b
    ensures Walk(v, a, p, b)
    decreases |p|
  {
    if p != [] {
      EdgesWalk(v, a, p[..|p| - 1], v.Near(p[|p| - 1]));
    }
  }

  /** A walk along the edges is a chain from the first source to the last target; one against them runs back. */
  lemma {:induction false} WalkMeans(edges: seq<Edge>, a: string, p: seq<nat>, b: string)
    ensures Walk(View(edges, true), a, p, b) <==>
            && (forall i :: 0 <= i < |p| ==> p[i] < |edges|)
            && (forall i :: 0 < i < |p| ==> edges[p[i]].source == edges[p[i - 1]].target)
            && (if p == [] then a == b else edges[p[0]].source == a && edges[p[|p| - 1]].target == b)
    ensures Walk(View(edges, false), a, p, b) <==>
            && (forall i :: 0 <= i < |p| ==> p[i] < |edges|)
            && (forall i :: 0 < i < |p| ==> edges[p[i]].target == edges[p[i - 1]].source)
            && (if p == [] then a == b else edges[p[0]].target == a && edges[p[|p| - 1]].source == b)
  {
    forall forward | Walk(View(edges, forward), a, p, b) ensures AllReal(View(edges, forward), p) {
      WalkEdges(View(edges, forward), a, p, b);
    }
    if Walk(View(edges, true), a, p, b) { WalkEdges(View(edges, true), a, p, b); }
    if Walk(View(edges, false), a, p, b) { WalkEdges(View(edges, false), a, p, b); }
    if forall i :: 0 <= i < |p| ==> p[i] < |edges| {
      var along, against := View(edges, true), View(edges, false);
      if (forall i :: 0 < i < |p| ==> along.Near(p[i]) == along.Far(p[i - 1])) &&
         (if p == [] then a == b else along.Near(p[0]) == a && along.Far(p[|p| - 1]) == b) {
        EdgesWalk(along, a, p, b);
      }
      if (forall i :: 0 < i < |p| ==> against.Near(p[i]) == against.Far(p[i - 1])) &&
         (if p == [] then a == b else against.Near(p[0]) == a && against.Far(p[|p| - 1]) == b) {
        EdgesWalk(against, a, p, b);
      }
    }
    hide Walk;
  }

  /** Read backwards, a walk along the edges is a walk against them. */
  lemma {:induction false} WalkReversed(edges: seq<Edge>, forward: bool, a: string, p: seq<nat>, b: string)
    requires Walk(View(edges, forward), a, p, b)
    ensures Walk(View(edges, !forward), b, Reversed(p), a)
  {
    WalkEdges(View(edges, forward), a, p, b);
    EdgesWalk(View(edges, !forward), b, Reversed(p), a);
  }
}
