/** How the causal ranking reacts to more evidence and to a deeper search. */
module CausalRankingLaws {
  import opened Prelude
  import opened Keys
  import opened CausalGraph
  import opened CausalProjection
  import opened CausalProjectionLaws
  import opened CausalRanking

  // ----- lexicographic comparison of equally long keys

  ghost predicate Pointwise(p: seq<Key>, q: seq<Key>)
  {
    |p| == |q| && forall i :: 0 <= i < |p| ==> Leq(p[i], q[i])
  }

  lemma {:induction false} LowerStays(p: seq<Key>, q: seq<Key>, p': seq<Key>)
    requires LessAll(p, q) && Pointwise(p', p) && |p| == |q|
    ensures LessAll(p', q)
    decreases p
  {
    if p != [] {
      assert Leq(p'[0], p[0]);
      if Less(p[0], q[0]) {
        LeqTransitive(p'[0], p[0], q[0]);
      } else if p'[0] == p[0] {
        assert Pointwise(p'[1..], p[1..]);
        LowerStays(p[1..], q[1..], p'[1..]);
      }
    }
  }

  lemma {:induction false} HigherStays(p: seq<Key>, q: seq<Key>, q': seq<Key>)
    requires LessAll(p, q) && Pointwise(q, q') && |p| == |q|
    ensures LessAll(p, q')
    decreases p
  {
    if p != [] {
      assert Leq(q[0], q'[0]);
      if Less(p[0], q[0]) {
        LeqTransitive(p[0], q[0], q'[0]);
      } else if q[0] == q'[0] {
        assert Pointwise(q[1..], q'[1..]);
        HigherStays(p[1..], q[1..], q'[1..]);
      }
    }
  }

  lemma SubsetSmaller<T>(a: set<T>, b: set<T>)
    requires a <= b
    ensures |a| <= |b|
  {
    if a != b {
      assert b == a + (b - a);
    }
  }

  // ----- more evidence

  /** The observed fact o bears on the candidate's path or predictions. */
  ghost predicate TouchedByObserved(concepts: Concepts, edges: seq<Edge>, r: Route, o: string)
    requires Rankable(concepts, edges, r)
  {
    o in Intermediate(r.nodes) || exists p :: p in concepts[r.nodes[0]].predictions && p.observation == o
  }

  /** The absent fact o bears on the candidate's path or falsifiers. */
  ghost predicate TouchedByAbsent(concepts: Concepts, edges: seq<Edge>, r: Route, o: string)
    requires Rankable(concepts, edges, r)
  {
    o in Intermediate(r.nodes) || exists f :: f in concepts[r.nodes[0]].falsifiers && f.observation == o
  }

  ghost function KeyOf(concepts: Concepts, edges: seq<Edge>, r: Route, observed: set<string>, absent: set<string>): Key
    requires Rankable(concepts, edges, r)
  {
    SortKey(CandidateOf(concepts, edges, r, observed, absent))
  }

  ghost function PartsOf(concepts: Concepts, edges: seq<Edge>, r: Route, observed: set<string>,
                         absent: set<string>): seq<Key>
    requires Rankable(concepts, edges, r)
  {
    KeyParts(FactorsOf(concepts, edges, r, observed, absent), |r.path|, r.nodes[0])
  }

  lemma MatchedGrows(h: Concept, observed: set<string>, observed': set<string>, s: Strength)
    requires h.Hypothesis? && observed <= observed'
    ensures Matched(h, observed, s) <= Matched(h, observed', s)
    ensures |Matched(h, observed, s)| <= |Matched(h, observed', s)|
  {
    SubsetSmaller(Matched(h, observed, s), Matched(h, observed', s));
  }

  /** Factors that are no worse in any component make a key that is no worse in any. */
  lemma BetterFactors(f: Factors, g: Factors, distance: nat, source: string)
    requires |f.pathConflicts + f.falsifierConflicts| <= |g.pathConflicts + g.falsifierConflicts|
    requires |f.matchedPath| >= |g.matchedPath|
    requires |f.matches.strong| >= |g.matches.strong| && |f.matches.moderate| >= |g.matches.moderate|
    requires |f.matches.weak| >= |g.matches.weak|
    requires f.strength == g.strength && f.provenance == g.provenance && f.contributes == g.contributes
    ensures Pointwise(KeyParts(f, distance, source), KeyParts(g, distance, source))
  {
  }

  /** More observed facts never worsen a candidate in any component. */
  lemma ObservedImproves(concepts: Concepts, edges: seq<Edge>, r: Route, observed: set<string>, absent: set<string>,
                         o: string)
    requires Rankable(concepts, edges, r)
    ensures Pointwise(PartsOf(concepts, edges, r, observed + {o}, absent),
                      PartsOf(concepts, edges, r, observed, absent))
  {
    hide KeyParts;
    hide Pointwise;
    hide Matched;
    var h, last := concepts[r.nodes[0]], r.nodes[|r.nodes| - 1];
    var f, g := FactorsOf(concepts, edges, r, observed + {o}, absent), FactorsOf(concepts, edges, r, observed, absent);
    SubsetSmaller(g.matchedPath, f.matchedPath);
    forall s { MatchedGrows(h, observed + {last}, observed + {o} + {last}, s); }
    BetterFactors(f, g, |r.path|, r.nodes[0]);
  }

  lemma ObservedIgnored(concepts: Concepts, edges: seq<Edge>, r: Route, observed: set<string>, absent: set<string>,
                        o: string)
    requires Rankable(concepts, edges, r) && !TouchedByObserved(concepts, edges, r, o)
    ensures FactorsOf(concepts, edges, r, observed + {o}, absent) == FactorsOf(concepts, edges, r, observed, absent)
  {
    var h, last := concepts[r.nodes[0]], r.nodes[|r.nodes| - 1];
    forall s ensures Matched(h, observed + {o} + {last}, s) == Matched(h, observed + {last}, s) {}
    assert Intermediate(r.nodes) * (observed + {o}) == Intermediate(r.nodes) * observed;
  }

  /** Adding an observed fact never lets a candidate it does not touch overtake one above it. */
  lemma ObservedMonotone(concepts: Concepts, edges: seq<Edge>, a: Route, b: Route, observed: set<string>,
                         absent: set<string>, o: string)
    requires Rankable(concepts, edges, a) && Rankable(concepts, edges, b) && !TouchedByObserved(concepts, edges, b, o)
    requires Less(KeyOf(concepts, edges, a, observed, absent), KeyOf(concepts, edges, b, observed, absent))
    ensures Less(KeyOf(concepts, edges, a, observed + {o}, absent), KeyOf(concepts, edges, b, observed + {o}, absent))
  {
    hide KeyParts;
    hide FactorsOf;
    hide Pointwise;
    ObservedImproves(concepts, edges, a, observed, absent, o);
    ObservedIgnored(concepts, edges, b, observed, absent, o);
    LowerStays(PartsOf(concepts, edges, a, observed, absent), PartsOf(concepts, edges, b, observed, absent),
               PartsOf(concepts, edges, a, observed + {o}, absent));
  }

  /** More absent facts never improve a candidate in any component. */
  lemma AbsentWorsens(concepts: Concepts, edges: seq<Edge>, r: Route, observed: set<string>, absent: set<string>,
                      o: string)
    requires Rankable(concepts, edges, r)
    ensures Pointwise(PartsOf(concepts, edges, r, observed, absent),
                      PartsOf(concepts, edges, r, observed, absent + {o}))
  {
    hide KeyParts;
    hide Pointwise;
    hide Matched;
    var f, g := FactorsOf(concepts, edges, r, observed, absent), FactorsOf(concepts, edges, r, observed, absent + {o});
    SubsetSmaller(f.pathConflicts + f.falsifierConflicts, g.pathConflicts + g.falsifierConflicts);
    BetterFactors(f, g, |r.path|, r.nodes[0]);
  }

  lemma AbsentIgnored(concepts: Concepts, edges: seq<Edge>, r: Route, observed: set<string>, absent: set<string>,
                      o: string)
    requires Rankable(concepts, edges, r) && !TouchedByAbsent(concepts, edges, r, o)
    ensures FactorsOf(concepts, edges, r, observed, absent + {o}) == FactorsOf(concepts, edges, r, observed, absent)
  {
    assert Intermediate(r.nodes) * (absent + {o}) == Intermediate(r.nodes) * absent;
    assert Falsified(concepts[r.nodes[0]], absent + {o}) == Falsified(concepts[r.nodes[0]], absent);
  }

  /** Adding an absent fact never demotes a candidate it does not touch below one it beat. */
  lemma AbsentMonotone(concepts: Concepts, edges: seq<Edge>, a: Route, b: Route, observed: set<string>,
                       absent: set<string>, o: string)
    requires Rankable(concepts, edges, a) && Rankable(concepts, edges, b) && !TouchedByAbsent(concepts, edges, a, o)
    requires Less(KeyOf(concepts, edges, a, observed, absent), KeyOf(concepts, edges, b, observed, absent))
    ensures Less(KeyOf(concepts, edges, a, observed, absent + {o}), KeyOf(concepts, edges, b, observed, absent + {o}))
  {
    hide KeyParts;
    hide FactorsOf;
    hide Pointwise;
    AbsentWorsens(concepts, edges, b, observed, absent, o);
    AbsentIgnored(concepts, edges, a, observed, absent, o);
    HigherStays(PartsOf(concepts, edges, a, observed, absent), PartsOf(concepts, edges, b, observed, absent),
                PartsOf(concepts, edges, b, observed, absent + {o}));
  }

  // ----- in terms of the rankings themselves

  /** Route r is ranked at position i. */
  ghost predicate RankedAt(cs: seq<Candidate>, i: nat, r: Route)
  {
    i < |cs| && cs[i].route == r
  }

  lemma RankedKey(concepts: Concepts, edges: seq<Edge>, rs: seq<Route>, observed: set<string>, absent: set<string>,
                  cs: seq<Candidate>, i: nat)
    requires Candidates(concepts, edges, rs, observed, absent, cs) && i < |cs|
    ensures Rankable(concepts, edges, cs[i].route)
    ensures SortKey(cs[i]) == KeyOf(concepts, edges, cs[i].route, observed, absent)
  {
    RankIgnored(CandidateOf(concepts, edges, cs[i].route, observed, absent), cs[i].rank);
  }

  /** In a ranking, positions are in the order of the keys. */
  lemma PositionsFollowKeys(concepts: Concepts, edges: seq<Edge>, rs: seq<Route>, observed: set<string>,
                            absent: set<string>, cs: seq<Candidate>, i: nat, j: nat)
    requires Candidates(concepts, edges, rs, observed, absent, cs) && StrictlyRanked(cs) && i < |cs| && j < |cs|
    requires Rankable(concepts, edges, cs[i].route) && Rankable(concepts, edges, cs[j].route)
    ensures i < j <==> Less(KeyOf(concepts, edges, cs[i].route, observed, absent),
                            KeyOf(concepts, edges, cs[j].route, observed, absent))
  {
    hide Less;
    hide SortKey;
    RankedKey(concepts, edges, rs, observed, absent, cs, i);
    RankedKey(concepts, edges, rs, observed, absent, cs, j);
    if i == j { Irreflexive(SortKey(cs[i])); }
    if j < i && Less(SortKey(cs[i]), SortKey(cs[j])) {
      Transitive(SortKey(cs[i]), SortKey(cs[j]), SortKey(cs[i]));
      Irreflexive(SortKey(cs[i]));
    }
  }

  /** Two rankings of the same catalog, before and after observing o: no untouched candidate overtakes. */
  lemma NoOvertaking(concepts: Concepts, edges: seq<Edge>, rs: seq<Route>, observed: set<string>, absent: set<string>,
                     o: string,
                     before: seq<Candidate>, after: seq<Candidate>, a: Route, b: Route, i: nat, j: nat, i': nat,
                     j': nat)
    requires Candidates(concepts, edges, rs, observed, absent, before) && StrictlyRanked(before)
    requires Candidates(concepts, edges, rs, observed + {o}, absent, after) && StrictlyRanked(after)
    requires RankedAt(before, i, a) && RankedAt(before, j, b) && RankedAt(after, i', a) && RankedAt(after, j', b)
    requires Rankable(concepts, edges, a) && Rankable(concepts, edges, b) && !TouchedByObserved(concepts, edges, b, o)
    requires i < j
    ensures i' < j'
  {
    PositionsFollowKeys(concepts, edges, rs, observed, absent, before, i, j);
    ObservedMonotone(concepts, edges, a, b, observed, absent, o);
    PositionsFollowKeys(concepts, edges, rs, observed + {o}, absent, after, i', j');
  }

  /** Before and after learning that o is absent: no untouched candidate falls below one it beat. */
  lemma NoDemotion(concepts: Concepts, edges: seq<Edge>, rs: seq<Route>, observed: set<string>, absent: set<string>,
                   o: string,
                   before: seq<Candidate>, after: seq<Candidate>, a: Route, b: Route, i: nat, j: nat, i': nat, j': nat)
    requires Candidates(concepts, edges, rs, observed, absent, before) && StrictlyRanked(before)
    requires Candidates(concepts, edges, rs, observed, absent + {o}, after) && StrictlyRanked(after)
    requires RankedAt(before, i, a) && RankedAt(before, j, b) && RankedAt(after, i', a) && RankedAt(after, j', b)
    requires Rankable(concepts, edges, a) && Rankable(concepts, edges, b) && !TouchedByAbsent(concepts, edges, a, o)
    requires i < j
    ensures i' < j'
  {
    PositionsFollowKeys(concepts, edges, rs, observed, absent, before, i, j);
    AbsentMonotone(concepts, edges, a, b, observed, absent, o);
    PositionsFollowKeys(concepts, edges, rs, observed, absent + {o}, after, i', j');
  }

  /** A deeper search keeps every ranked candidate, with the same factors, in the same order. */
  lemma DeeperKeepsOrder(concepts: Concepts, edges: seq<Edge>, target: string, bound: Option<int>, bound': Option<int>,
                         observed: set<string>, absent: set<string>, rs: seq<Route>, rs': seq<Route>,
                         cs: seq<Candidate>, cs': seq<Candidate>, i: nat, j: nat) returns (i': nat, j': nat)
    requires Shallower(bound, bound') && CauseList(edges, target, bound, rs) && CauseList(edges, target, bound', rs')
    requires Candidates(concepts, edges, rs, observed, absent, cs) && StrictlyRanked(cs)
    requires Candidates(concepts, edges, rs', observed, absent, cs') && StrictlyRanked(cs')
    requires i < j < |cs|
    ensures i' < j' < |cs'|
    ensures cs'[i'].route == cs[i].route && cs'[i'].factors == cs[i].factors
    ensures cs'[j'].route == cs[j].route && cs'[j'].factors == cs[j].factors
  {
    hide CauseList;
    hide StrictlyRanked;
    BoundIsPrefix(edges, target, bound, bound', rs, rs');
    i' := Find(concepts, edges, rs, rs', observed, absent, cs, cs', i);
    j' := Find(concepts, edges, rs, rs', observed, absent, cs, cs', j);
    RankedKey(concepts, edges, rs, observed, absent, cs, i);
    RankedKey(concepts, edges, rs, observed, absent, cs, j);
    PositionsFollowKeys(concepts, edges, rs, observed, absent, cs, i, j);
    PositionsFollowKeys(concepts, edges, rs', observed, absent, cs', i', j');
  }

  lemma Find(concepts: Concepts, edges: seq<Edge>, rs: seq<Route>, rs': seq<Route>, observed: set<string>,
             absent: set<string>, cs: seq<Candidate>, cs': seq<Candidate>, i: nat) returns (i': nat)
    requires |rs| <= |rs'| && rs == rs'[..|rs|]
    requires Candidates(concepts, edges, rs, observed, absent, cs) &&
             Candidates(concepts, edges, rs', observed, absent, cs')
    requires i < |cs|
    ensures i' < |cs'| && cs'[i'].route == cs[i].route && cs'[i'].factors == cs[i].factors
  {
    hide FactorsOf;
    hide Rankable;
    var r := cs[i].route;
    assert IsCandidate(concepts, edges, observed, absent, cs[i]);
    assert r in rs'[..|rs|] && r in rs';
    assert HasRoute(cs', r);
    i' :| 0 <= i' < |cs'| && cs'[i'].route == r;
    assert IsCandidate(concepts, edges, observed, absent, cs'[i']);
  }

  // ----- the order of the edge list

  lemma FactorsAlike(concepts: Concepts, edges: seq<Edge>, edges': seq<Edge>, observed: set<string>,
                     absent: set<string>, r: Route, r': Route)
    requires SameRoute(edges, edges', r, r') && Rankable(concepts, edges, r)
    ensures Rankable(concepts, edges', r')
    ensures FactorsOf(concepts, edges, r, observed, absent) == FactorsOf(concepts, edges', r', observed, absent)
  {
    assert |EdgesAt(edges, r.path)| == |EdgesAt(edges', r'.path)|;
  }

  /** The same candidate, wherever the two lists keep its edges. */
  ghost predicate SameCandidate(edges: seq<Edge>, edges': seq<Edge>, c: Candidate, c': Candidate)
  {
    SameRoute(edges, edges', c.route, c'.route) && c.source == c'.source && c.factors == c'.factors
  }

  lemma SameSortKey(edges: seq<Edge>, edges': seq<Edge>, c: Candidate, c': Candidate)
    requires SameCandidate(edges, edges', c, c')
    ensures SortKey(c) == SortKey(c')
  {
    assert |EdgesAt(edges, c.route.path)| == |EdgesAt(edges', c'.route.path)|;
  }

  ghost predicate SameRoutes(edges: seq<Edge>, edges': seq<Edge>, rs: seq<Route>, rs': seq<Route>)
  {
    |rs| == |rs'| && forall i :: 0 <= i < |rs| ==> SameRoute(edges, edges', rs[i], rs'[i])
  }

  lemma CounterpartOf(concepts: Concepts, edges: seq<Edge>, edges': seq<Edge>, observed: set<string>,
                      absent: set<string>, rs: seq<Route>, rs': seq<Route>, cs: seq<Candidate>, cs': seq<Candidate>,
                      i: nat) returns (j: nat)
    requires SameRoutes(edges, edges', rs, rs') && i < |cs|
    requires Candidates(concepts, edges, rs, observed, absent, cs)
    requires Candidates(concepts, edges', rs', observed, absent, cs')
    ensures j < |cs'| && SameCandidate(edges, edges', cs[i], cs'[j])
  {
    hide FactorsOf;
    hide SameRoute;
    var k :| 0 <= k < |rs| && rs[k] == cs[i].route;
    FactorsAlike(concepts, edges, edges', observed, absent, rs[k], rs'[k]);
    assert HasRoute(cs', rs'[k]);
    j :| 0 <= j < |cs'| && cs'[j].route == rs'[k];
    assert IsCandidate(concepts, edges, observed, absent, cs[i]);
    assert IsCandidate(concepts, edges', observed, absent, cs'[j]);
    SameStart(edges, edges', rs[k], rs'[k]);
  }

  lemma SameStart(edges: seq<Edge>, edges': seq<Edge>, r: Route, r': Route)
    requires SameRoute(edges, edges', r, r')
    ensures r.nodes == r'.nodes
  {
  }

  function SortKeys(cs: seq<Candidate>): (r: seq<Key>)
    ensures |r| == |cs| && forall i :: 0 <= i < |cs| ==> r[i] == SortKey(cs[i])
  {
    seq(|cs|, i requires 0 <= i < |cs| => SortKey(cs[i]))
  }

  lemma SortKeysWithin(concepts: Concepts, edges: seq<Edge>, edges': seq<Edge>, observed: set<string>,
                       absent: set<string>, rs: seq<Route>, rs': seq<Route>, cs: seq<Candidate>, cs': seq<Candidate>)
    requires SameRoutes(edges, edges', rs, rs')
    requires Candidates(concepts, edges, rs, observed, absent, cs)
    requires Candidates(concepts, edges', rs', observed, absent, cs')
    ensures forall k :: k in SortKeys(cs) ==> k in SortKeys(cs')
  {
    hide *;
    forall k | k in SortKeys(cs) ensures k in SortKeys(cs') {
      var i :| 0 <= i < |cs| && SortKeys(cs)[i] == k;
      var j := CounterpartOf(concepts, edges, edges', observed, absent, rs, rs', cs, cs', i);
      SameSortKey(edges, edges', cs[i], cs'[j]);
      assert SortKeys(cs')[j] == k;
    }
  }

  lemma SameRoutesBack(edges: seq<Edge>, edges': seq<Edge>, rs: seq<Route>, rs': seq<Route>)
    requires SameRoutes(edges, edges', rs, rs')
    ensures SameRoutes(edges', edges, rs', rs)
  {
  }

  /** The ranking is the same, factors and all, whatever the order of an edge list with distinct ids is. */
  lemma RankingIgnoresOrder(concepts: Concepts, edges: seq<Edge>, edges': seq<Edge>, target: string,
                            bound: Option<int>, observed: set<string>, absent: set<string>, rs: seq<Route>,
                            rs': seq<Route>, cs: seq<Candidate>, cs': seq<Candidate>)
    requires SameEdges(edges, edges') && DistinctIds(edges) && DistinctIds(edges')
    requires CauseList(edges, target, bound, rs) && CauseList(edges', target, bound, rs')
    requires Candidates(concepts, edges, rs, observed, absent, cs) && StrictlyRanked(cs)
    requires Candidates(concepts, edges', rs', observed, absent, cs') && StrictlyRanked(cs')
    ensures |cs| == |cs'|
    ensures forall i :: 0 <= i < |cs| ==> SameCandidate(edges, edges', cs[i], cs'[i]) && cs[i].rank == cs'[i].rank
  {
    hide CauseList;
    hide Candidates;
    hide SameEdges;
    hide DistinctIds;
    hide Less;
    hide SortKey;
    hide SameCandidate;
    CausesIgnoreOrder(edges, edges', target, bound, rs, rs');
    SameRoutesBack(edges, edges', rs, rs');
    hide SameRoute;
    SortKeysWithin(concepts, edges, edges', observed, absent, rs, rs', cs, cs');
    SortKeysWithin(concepts, edges', edges, observed, absent, rs', rs, cs', cs);
    StrictUnique(SortKeys(cs), SortKeys(cs'));
    forall i | 0 <= i < |cs| ensures SameCandidate(edges, edges', cs[i], cs'[i]) {
      var j := CounterpartOf(concepts, edges, edges', observed, absent, rs, rs', cs, cs', i);
      SameSortKey(edges, edges', cs[i], cs'[j]);
      assert SortKey(cs'[j]) == SortKeys(cs)[i] == SortKeys(cs')[i] == SortKey(cs'[i]);
      Irreflexive(SortKey(cs'[i]));
    }
  }
}
