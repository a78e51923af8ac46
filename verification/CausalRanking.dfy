/** scripts/causal_ranking.py: ranking upstream hypotheses by ten ordinal factors. */
module CausalRanking {
  import opened Prelude
  import opened Keys
  import opened CausalGraph
  import opened CausalProjection
  import opened CausalProjectionLaws

  /** A prediction; an unknown or missing strength counts as weak. */
  datatype Prediction = Prediction(observation: string, strength: Strength, expected: Option<string>)

  datatype Falsifier = Falsifier(observation: string, condition: Option<string>)

  /** A probe's risk; an unknown or missing one counts as high. */
  datatype Risk = ReadOnly | Low | StateChanging | High

  datatype Concept =
    | Hypothesis(predictions: seq<Prediction>, falsifiers: seq<Falsifier>, testedBy: seq<string>)
    | Probe(produces: seq<string>, risk: Risk, capabilities: seq<string>, tools: seq<string>)
    | Observation
    | OtherConcept

  type Concepts = map<string, Concept>

  predicate IsHypothesis(concepts: Concepts, id: string)
  {
    id in concepts && concepts[id].Hypothesis?
  }

  // ----- what the evidence says about one hypothesis

  datatype Matches = Matches(strong: set<string>, moderate: set<string>, weak: set<string>)

  ghost function Matched(h: Concept, observed: set<string>, s: Strength): set<string>
    requires h.Hypothesis?
  {
    set p | p in h.predictions && p.strength == s && p.observation in observed :: p.observation
  }

  /** `prediction_matches`. */
  method PredictionMatches(h: Concept, observed: set<string>) returns (r: Matches)
    requires h.Hypothesis?
    ensures r == Matches(Matched(h, observed, Strong), Matched(h, observed, Moderate), Matched(h, observed, Weak))
  {
    r := Matches({}, {}, {});
    for i := 0 to |h.predictions|
      invariant r == (var g := h.(predictions := h.predictions[..i]);
                      Matches(Matched(g, observed, Strong), Matched(g, observed, Moderate), Matched(g, observed, Weak)))
    {
      var p := h.predictions[i];
      assert h.predictions[..i + 1] == h.predictions[..i] + [p];
      MatchedMore(h, observed, i, Strong);
      MatchedMore(h, observed, i, Moderate);
      MatchedMore(h, observed, i, Weak);
      if p.observation !in observed { continue; }
      match p.strength
      case Strong => r := r.(strong := r.strong + {p.observation});
      case Moderate => r := r.(moderate := r.moderate + {p.observation});
      case Weak => r := r.(weak := r.weak + {p.observation});
    }
    assert h.(predictions := h.predictions[..|h.predictions|]) == h;
  }

  lemma MatchedMore(h: Concept, observed: set<string>, i: nat, s: Strength)
    requires h.Hypothesis? && i < |h.predictions|
    ensures var p := h.predictions[i];
            Matched(h.(predictions := h.predictions[..i + 1]), observed, s) ==
            Matched(h.(predictions := h.predictions[..i]), observed, s) +
            (if p.strength == s && p.observation in observed then {p.observation} else {})
  {
    var xs, p := h.predictions[..i], h.predictions[i];
    assert h.predictions[..i + 1] == xs + [p];
    assert forall q :: q in xs + [p] <==> q in xs || q == p;
  }

  ghost function Falsified(h: Concept, absent: set<string>): set<string>
    requires h.Hypothesis?
  {
    set f | f in h.falsifiers && f.observation in absent :: f.observation
  }

  /** `falsifier_conflicts`. */
  method FalsifierConflicts(h: Concept, absent: set<string>) returns (r: set<string>)
    requires h.Hypothesis?
    ensures r == Falsified(h, absent)
  {
    r := {};
    for i := 0 to |h.falsifiers|
      invariant r == Falsified(h.(falsifiers := h.falsifiers[..i]), absent)
    {
      var f := h.falsifiers[i];
      assert h.falsifiers[..i + 1] == h.falsifiers[..i] + [f];
      assert forall g :: g in h.falsifiers[..i + 1] <==> g in h.falsifiers[..i] || g == f;
      if f.observation in absent { r := r + {f.observation}; }
    }
    assert h.(falsifiers := h.falsifiers[..|h.falsifiers|]) == h;
  }

  // ----- the factors of one candidate

  function StrengthRank(s: Strength): nat
  {
    match s case Weak => 0 case Moderate => 1 case Strong => 2
  }

  /** What backs an edge. */
  datatype Provenance = Unbacked | ByClaim | ByExperiment

  predicate HasExperiments(e: Edge) { e.evidence.Some? && e.evidence.value.experiments != [] }

  predicate HasClaims(e: Edge) { e.evidence.Some? && e.evidence.value.claims != [] }

  /** `edge_provenance`. */
  function EdgeProvenance(e: Edge): (r: Provenance)
    ensures r.ByExperiment? <==> HasExperiments(e)
    ensures r.ByClaim? <==> HasClaims(e) && !HasExperiments(e)
  {
    match e.evidence
    case None => Unbacked
    case Some(b) => if b.experiments != [] then ByExperiment else if b.claims != [] then ByClaim else Unbacked
  }

  function ProvenanceRank(p: Provenance): nat
  {
    match p case Unbacked => 0 case ByClaim => 1 case ByExperiment => 2
  }

  /** Strong over moderate over weak. */
  predicate Stronger(a: Strength, b: Strength)
  {
    a != b && (a == Strong || b == Weak)
  }

  /** An experiment over a claim over nothing. */
  predicate BetterBacked(a: Provenance, b: Provenance)
  {
    a != b && (a == ByExperiment || b == Unbacked)
  }

  function WeakestStrength(es: seq<Edge>): (r: Strength)
    requires es != []
    ensures forall i :: 0 <= i < |es| ==> !Stronger(r, es[i].strength)
    ensures exists i :: 0 <= i < |es| && r == es[i].strength
  {
    if |es| == 1 then es[0].strength
    else
      var rest := WeakestStrength(es[1..]);
      if StrengthRank(es[0].strength) <= StrengthRank(rest) then es[0].strength else rest
  }

  function WeakestProvenance(es: seq<Edge>): (r: Provenance)
    requires es != []
    ensures forall i :: 0 <= i < |es| ==> !BetterBacked(r, EdgeProvenance(es[i]))
    ensures exists i :: 0 <= i < |es| && r == EdgeProvenance(es[i])
  {
    if |es| == 1 then EdgeProvenance(es[0])
    else
      var rest, first := WeakestProvenance(es[1..]), EdgeProvenance(es[0]);
      if ProvenanceRank(first) <= ProvenanceRank(rest) then first else rest
  }

  /** The positions of a list's edges that satisfy a predicate. */
  ghost function Positions(es: seq<Edge>, p: Edge -> bool): set<nat>
  {
    set i: nat | i < |es| && p(es[i])
  }

  lemma PositionsShift(es: seq<Edge>, p: Edge -> bool)
    requires es != []
    ensures |Positions(es, p)| == |Positions(es[1..], p)| + if p(es[0]) then 1 else 0
  {
    var rest := Positions(es[1..], p);
    var shifted := set i | i in rest :: i + 1;
    Shifted(rest, shifted);
    forall i: nat ensures i in Positions(es, p) <==> i in shifted || (i == 0 && p(es[0])) {
      if i > 0 && i in Positions(es, p) {
        assert es[1..][i - 1] == es[i];
        assert i - 1 in rest;
      }
    }
    if p(es[0]) {
      assert Positions(es, p) == shifted + {0};
    } else {
      assert Positions(es, p) == shifted;
    }
  }

  lemma {:induction false} Shifted(s: set<nat>, t: set<nat>)
    requires t == set i | i in s :: i + 1
    ensures |s| == |t|
    decreases |s|
  {
    if s != {} {
      var i :| i in s;
      var rest := set j | j in s - {i} :: j + 1;
      Shifted(s - {i}, rest);
      forall n: nat ensures n in t <==> n in rest || n == i + 1 {
        if n in t {
          var j :| j in s && n == j + 1;
          if j != i { assert j in s - {i}; }
        }
      }
      assert t == rest + {i + 1};
    }
  }

  predicate Contributes(e: Edge) { e.relation == "contributes_to" }

  function ContributesTo(es: seq<Edge>): (r: nat)
    ensures r == |Positions(es, Contributes)|
  {
    if es == [] then
      assert Positions(es, Contributes) == {};
      0
    else
      PositionsShift(es, Contributes);
      (if es[0].relation == "contributes_to" then 1 else 0) + ContributesTo(es[1..])
  }

  /** Edges whose provenance is an experiment; edges with claims count apart from it. */
  function ExperimentBacked(es: seq<Edge>): (r: nat)
    ensures r == |Positions(es, HasExperiments)|
  {
    if es == [] then
      assert Positions(es, HasExperiments) == {};
      0
    else
      PositionsShift(es, HasExperiments);
      (if EdgeProvenance(es[0]) == ByExperiment then 1 else 0) + ExperimentBacked(es[1..])
  }

  function ClaimBacked(es: seq<Edge>): (r: nat)
    ensures r == |Positions(es, HasClaims)|
  {
    if es == [] then
      assert Positions(es, HasClaims) == {};
      0
    else
      PositionsShift(es, HasClaims);
      (if HasClaims(es[0]) then 1 else 0) + ClaimBacked(es[1..])
  }

  /** The inner nodes of a path. */
  function Intermediate(nodes: seq<string>): (r: set<string>)
    ensures forall n :: n in r <==> exists i :: 0 < i < |nodes| - 1 && nodes[i] == n
  {
    if |nodes| < 3 then {}
    else
      var inner := nodes[1..|nodes| - 1];
      set n | n in inner
  }

  datatype Factors = Factors(matchedPath: set<string>, pathConflicts: set<string>, falsifierConflicts: set<string>,
                             matches: Matches, strength: Strength, provenance: Provenance,
                             experimentBacked: nat, claimBacked: nat,
                             contributes: nat)

  datatype Candidate = Candidate(rank: nat, source: string, route: Route, factors: Factors)

  /** The routes a ranking is made from: real, non-empty, from a hypothesis. */
  ghost predicate Rankable(concepts: Concepts, edges: seq<Edge>, r: Route)
  {
    && |r.nodes| >= 2 && r.path != [] && IsHypothesis(concepts, r.nodes[0])
    && forall i :: 0 <= i < |r.path| ==> r.path[i] < |edges|
  }

  ghost function FactorsOf(concepts: Concepts, edges: seq<Edge>, r: Route, observed: set<string>,
                           absent: set<string>): Factors
    requires Rankable(concepts, edges, r)
  {
    var h, inner, es := concepts[r.nodes[0]], Intermediate(r.nodes), EdgesAt(edges, r.path);
    var effective := observed + {r.nodes[|r.nodes| - 1]};
    Factors(inner * observed, inner * absent, Falsified(h, absent),
            Matches(Matched(h, effective, Strong), Matched(h, effective, Moderate), Matched(h, effective, Weak)),
            WeakestStrength(es), WeakestProvenance(es), ExperimentBacked(es), ClaimBacked(es), ContributesTo(es))
  }

  /** `candidate_factors`. */
  method CandidateFactors(concepts: Concepts, edges: seq<Edge>, r: Route, observed: set<string>, absent: set<string>)
    returns (f: Factors)
    requires Rankable(concepts, edges, r)
    ensures f == FactorsOf(concepts, edges, r, observed, absent)
  {
    var h, inner, es := concepts[r.nodes[0]], Intermediate(r.nodes), EdgesAt(edges, r.path);
    var falsified := FalsifierConflicts(h, absent);
    var matches := PredictionMatches(h, observed + {r.nodes[|r.nodes| - 1]});
    f := Factors(inner * observed, inner * absent, falsified, matches, WeakestStrength(es), WeakestProvenance(es),
                 ExperimentBacked(es), ClaimBacked(es), ContributesTo(es));
  }

  /** `candidate_sort_key`, in the order of RANKING_PRIORITY. */
  function KeyParts(f: Factors, distance: nat, source: string): (r: seq<Key>)
    ensures |r| == 10
  {
    [ Num(|f.pathConflicts + f.falsifierConflicts|),
      Num(-|f.matchedPath|),
      Num(-|f.matches.strong|),
      Num(-|f.matches.moderate|),
      Num(-|f.matches.weak|),
      Num(0 - StrengthRank(f.strength)),
      Num(0 - ProvenanceRank(f.provenance)),
      Num(distance),
      Num(f.contributes),
      Text(source) ]
  }

  function SortKey(c: Candidate): Key
  {
    Tuple(KeyParts(c.factors, |c.route.path|, c.source))
  }

  ghost function CandidateOf(concepts: Concepts, edges: seq<Edge>, r: Route, observed: set<string>,
                             absent: set<string>): Candidate
    requires Rankable(concepts, edges, r)
  {
    Candidate(0, r.nodes[0], r, FactorsOf(concepts, edges, r, observed, absent))
  }

  // ----- the ranking

  ghost predicate IsCandidate(concepts: Concepts, edges: seq<Edge>, observed: set<string>, absent: set<string>,
                              c: Candidate)
  {
    && Rankable(concepts, edges, c.route)
    && c == CandidateOf(concepts, edges, c.route, observed, absent).(rank := c.rank)
  }

  /** The candidates of the listed routes that start at a hypothesis. */
  ghost predicate Candidates(concepts: Concepts, edges: seq<Edge>, rs: seq<Route>, observed: set<string>,
                             absent: set<string>, cs: seq<Candidate>)
  {
    && (forall i :: 0 <= i < |cs| ==> cs[i].route in rs && IsCandidate(concepts, edges, observed, absent, cs[i]))
    && (forall r :: r in rs && Rankable(concepts, edges, r) ==> HasRoute(cs, r))
  }

  ghost predicate StrictlyRanked(cs: seq<Candidate>)
  {
    && StrictlySorted(cs, SortKey)
    && (forall i :: 0 <= i < |cs| ==> cs[i].rank == i + 1)
  }

  function SourceId(c: Candidate): string { c.source }

  lemma SourceKey(c: Candidate, d: Candidate)
    ensures SortKey(c) == SortKey(d) ==> c.source == d.source
  {
    if SortKey(c) == SortKey(d) {
      var P, Q := KeyParts(c.factors, |c.route.path|, c.source), KeyParts(d.factors, |d.route.path|, d.source);
      assert P == Q && P[9] == Text(c.source) && Q[9] == Text(d.source);
    }
  }

  // ----- what the ranking prefers

  function Conflicting(c: Candidate): set<string> { c.factors.pathConflicts + c.factors.falsifierConflicts }

  /** The ten criteria, each in terms of the candidates' own factors. */
  predicate Ahead(criterion: nat, c: Candidate, d: Candidate)
  {
    match criterion
    case 0 => |Conflicting(c)| < |Conflicting(d)|
    case 1 => |c.factors.matchedPath| > |d.factors.matchedPath|
    case 2 => |c.factors.matches.strong| > |d.factors.matches.strong|
    case 3 => |c.factors.matches.moderate| > |d.factors.matches.moderate|
    case 4 => |c.factors.matches.weak| > |d.factors.matches.weak|
    case 5 => Stronger(c.factors.strength, d.factors.strength)
    case 6 => BetterBacked(c.factors.provenance, d.factors.provenance)
    case 7 => |c.route.path| < |d.route.path|
    case 8 => c.factors.contributes < d.factors.contributes
    case 9 => TextLess(c.source, d.source)
    case _ => false
  }

  predicate Tied(criterion: nat, c: Candidate, d: Candidate)
  {
    !Ahead(criterion, c, d) && !Ahead(criterion, d, c)
  }

  /** The first criterion that does not tie the two decides for c. */
  ghost predicate Precedes(c: Candidate, d: Candidate)
  {
    exists k: nat :: Decides(k, c, d)
  }

  ghost predicate Decides(k: nat, c: Candidate, d: Candidate)
  {
    k < 10 && Ahead(k, c, d) && forall l: nat :: l < k ==> Tied(l, c, d)
  }

  lemma CriterionOf(k: nat, c: Candidate, d: Candidate)
    requires k < 10
    ensures var P, Q := KeyParts(c.factors, |c.route.path|, c.source), KeyParts(d.factors, |d.route.path|, d.source);
            (Less(P[k], Q[k]) ==> Ahead(k, c, d)) && (P[k] == Q[k] ==> Tied(k, c, d))
  {
    TextIrreflexive(c.source);
    hide TextLess;
    if k < 5 {
    } else if k == 5 {
    } else if k == 6 {
    } else if k == 7 {
    } else if k == 8 {
    } else {
      assert k == 9;
    }
  }

  /** A candidate that is listed before another precedes it by the ten criteria. */
  lemma {:induction false} ListedByPrecedence(cs: seq<Candidate>, i: nat, j: nat)
    requires StrictlyRanked(cs) && i < j < |cs|
    ensures Precedes(cs[i], cs[j]) && cs[i].rank == i + 1
  {
    var c, d := cs[i], cs[j];
    var P, Q := KeyParts(c.factors, |c.route.path|, c.source), KeyParts(d.factors, |d.route.path|, d.source);
    assert Less(SortKey(c), SortKey(d));
    assert LessAll(P, Q);
    hide KeyParts;
    hide Less;
    FirstDifference(P, Q);
    var k :| 0 <= k < |P| && Less(P[k], Q[k]) && forall l :: 0 <= l < k ==> P[l] == Q[l];
    hide LessAll;
    hide Ahead;
    hide Tied;
    CriterionOf(k, c, d);
    forall l: nat | l < k ensures Tied(l, c, d) { CriterionOf(l, c, d); }
    assert Decides(k, c, d);
  }

  // ----- rank_causes

  lemma CauseRankable(concepts: Concepts, edges: seq<Edge>, target: string, bound: Option<int>, r: Route)
    requires Cause(edges, target, bound, r) && IsHypothesis(concepts, r.nodes[0])
    ensures Rankable(concepts, edges, r)
  {
    WalkEdges(View(edges, true), r.nodes[0], r.path, target);
  }

  /** `rank_causes`. */
  method RankCauses(target: string, edges: seq<Edge>, concepts: Concepts, observed: set<string>, absent: set<string>,
                    bound: Option<int>) returns (cs: seq<Candidate>, ghost rs: seq<Route>)
    ensures CauseList(edges, target, bound, rs)
    ensures Candidates(concepts, edges, rs, observed, absent, cs)
    ensures StrictlyRanked(cs)
    ensures forall i, j :: 0 <= i < j < |cs| ==> Precedes(cs[i], cs[j])
  {
    hide Less;
    hide Precedes;
    hide CauseList;
    hide Cause;
    hide SortKey;
    hide FactorsOf;
    hide IsCandidate;
    hide Rankable;
    var routes := ReverseShortestPaths(target, edges, bound);
    rs := routes;
    var found: seq<Candidate> := [];
    for k := 0 to |routes|
      invariant Progress(concepts, edges, rs, observed, absent, k, found)
    {
      var r := routes[k];
      ListHas(edges, target, bound, rs, k);
      if !IsHypothesis(concepts, r.nodes[0]) {
        ProgressSkip(concepts, edges, rs, observed, absent, k, found);
        continue;
      }
      CauseRankable(concepts, edges, target, bound, r);
      var f := CandidateFactors(concepts, edges, r, observed, absent);
      Built(concepts, edges, r, observed, absent, f);
      ProgressAdd(concepts, edges, target, bound, rs, observed, absent, k, found, Candidate(0, r.nodes[0], r, f));
      found := found + [Candidate(0, r.nodes[0], r, f)];
    }
    ProgressDone(concepts, edges, rs, observed, absent, found);
    cs := Finish(concepts, edges, rs, observed, absent, found);
    forall i, j | 0 <= i < j < |cs| ensures Precedes(cs[i], cs[j]) { ListedByPrecedence(cs, i, j); }
  }

  lemma Built(concepts: Concepts, edges: seq<Edge>, r: Route, observed: set<string>, absent: set<string>, f: Factors)
    requires Rankable(concepts, edges, r) && f == FactorsOf(concepts, edges, r, observed, absent)
    ensures IsCandidate(concepts, edges, observed, absent, Candidate(0, r.nodes[0], r, f))
  {
  }

  /** The candidates found among the first k routes. */
  ghost predicate Progress(concepts: Concepts, edges: seq<Edge>, rs: seq<Route>, observed: set<string>,
                           absent: set<string>, k: nat, found: seq<Candidate>)
    requires k <= |rs|
  {
    && (forall i :: 0 <= i < |found| ==>
        IsCandidate(concepts, edges, observed, absent, found[i]) && found[i].route in rs[..k])
    && (forall j :: 0 <= j < k && Rankable(concepts, edges, rs[j]) ==> HasRoute(found, rs[j]))
    && (forall i, j :: 0 <= i < j < |found| ==> found[i].source != found[j].source)
  }

  ghost predicate HasRoute(cs: seq<Candidate>, r: Route)
  {
    exists i :: 0 <= i < |cs| && cs[i].route == r
  }

  lemma ProgressSkip(concepts: Concepts, edges: seq<Edge>, rs: seq<Route>, observed: set<string>, absent: set<string>,
                     k: nat, found: seq<Candidate>)
    requires k < |rs| && Progress(concepts, edges, rs, observed, absent, k, found)
    requires rs[k].nodes != [] && !IsHypothesis(concepts, rs[k].nodes[0])
    ensures Progress(concepts, edges, rs, observed, absent, k + 1, found)
  {
    hide IsCandidate;
    assert rs[..k + 1] == rs[..k] + [rs[k]];
  }

  lemma ProgressAdd(concepts: Concepts, edges: seq<Edge>, target: string, bound: Option<int>, rs: seq<Route>,
                    observed: set<string>, absent: set<string>, k: nat, found: seq<Candidate>, c: Candidate)
    requires CauseList(edges, target, bound, rs)
    requires k < |rs| && Progress(concepts, edges, rs, observed, absent, k, found)
    requires c.route == rs[k] && IsCandidate(concepts, edges, observed, absent, c)
    ensures Progress(concepts, edges, rs, observed, absent, k + 1, found + [c])
  {
    hide CauseList;
    hide FactorsOf;
    assert rs[..k + 1] == rs[..k] + [rs[k]];
    forall i | 0 <= i < |found| ensures found[i].source != c.source {
      var j :| 0 <= j < k && rs[..k][j] == found[i].route;
      ListHas(edges, target, bound, rs, j);
      ListHas(edges, target, bound, rs, k);
      if rs[j].nodes[0] == rs[k].nodes[0] { ListedOnce(edges, target, bound, rs, j, k); }
    }
    forall j | 0 <= j <= k && Rankable(concepts, edges, rs[j]) ensures HasRoute(found + [c], rs[j]) {
      if j < k {
        var i :| 0 <= i < |found| && found[i].route == rs[j];
        assert (found + [c])[i].route == rs[j];
      } else {
        assert (found + [c])[|found|].route == rs[j];
      }
    }
  }

  lemma ProgressDone(concepts: Concepts, edges: seq<Edge>, rs: seq<Route>, observed: set<string>, absent: set<string>,
                     found: seq<Candidate>)
    requires Progress(concepts, edges, rs, observed, absent, |rs|, found)
    ensures Candidates(concepts, edges, rs, observed, absent, found)
  {
    hide IsCandidate;
    hide Rankable;
    assert rs[..|rs|] == rs;
    forall r | r in rs && Rankable(concepts, edges, r) ensures HasRoute(found, r) {
      var j :| 0 <= j < |rs| && rs[j] == r;
    }
  }

  lemma ListHas(edges: seq<Edge>, target: string, bound: Option<int>, rs: seq<Route>, k: nat)
    requires CauseList(edges, target, bound, rs) && k < |rs|
    ensures Cause(edges, target, bound, rs[k]) && rs[k].nodes != []
  {
  }

  /** The sort and the rank assignment at the end of `rank_causes`. */
  method Finish(concepts: Concepts, edges: seq<Edge>, ghost rs: seq<Route>, ghost observed: set<string>,
                ghost absent: set<string>, found: seq<Candidate>) returns (cs: seq<Candidate>)
    requires Candidates(concepts, edges, rs, observed, absent, found)
    requires forall i, j :: 0 <= i < j < |found| ==> found[i].source != found[j].source
    ensures Candidates(concepts, edges, rs, observed, absent, cs)
    ensures StrictlyRanked(cs)
  {
    hide Less;
    hide SortKey;
    hide IsCandidate;
    hide Rankable;
    forall c, d | c in found && d in found && SortKey(c) == SortKey(d) ensures SourceId(c) == SourceId(d) {
      SourceKey(c, d);
    }
    SortBySorts(found, SortKey);
    var sorted := SortBy(found, SortKey);
    StrictByName(found, sorted, SortKey, SourceId);
    cs := [];
    for k := 0 to |sorted|
      invariant |cs| == k
      invariant forall i :: 0 <= i < k ==> cs[i] == sorted[i].(rank := i + 1)
    {
      cs := cs + [sorted[k].(rank := k + 1)];
    }
    Renumbered(concepts, edges, rs, observed, absent, found, sorted, cs);
  }

  lemma RankIgnored(c: Candidate, n: nat)
    ensures SortKey(c.(rank := n)) == SortKey(c)
  {
  }

  lemma Renumbered(concepts: Concepts, edges: seq<Edge>, rs: seq<Route>, observed: set<string>, absent: set<string>,
                   found: seq<Candidate>, sorted: seq<Candidate>, cs: seq<Candidate>)
    requires Candidates(concepts, edges, rs, observed, absent, found) && forall x :: x in sorted <==> x in found
    requires StrictlySorted(sorted, SortKey)
    requires |cs| == |sorted| && forall i :: 0 <= i < |cs| ==> cs[i] == sorted[i].(rank := i + 1)
    ensures Candidates(concepts, edges, rs, observed, absent, cs) && StrictlyRanked(cs)
  {
    hide Less;
    hide SortKey;
    hide FactorsOf;
    hide Rankable;
    forall i | 0 <= i < |cs|
      ensures cs[i].route in rs && IsCandidate(concepts, edges, observed, absent, cs[i])
    {
      assert sorted[i] in found;
      var a :| 0 <= a < |found| && found[a] == sorted[i];
    }
    forall r | r in rs && Rankable(concepts, edges, r) ensures HasRoute(cs, r) {
      var a :| 0 <= a < |found| && found[a].route == r;
      assert found[a] in sorted;
      var i :| 0 <= i < |sorted| && sorted[i] == found[a];
      assert cs[i].route == r;
    }
    forall i, j | 0 <= i < j < |cs| ensures Less(SortKey(cs[i]), SortKey(cs[j])) {
      RankIgnored(sorted[i], i + 1);
      RankIgnored(sorted[j], j + 1);
    }
  }
}
