/** scripts/probe_ranking.py: how the outcomes of one observation tell ranked candidates apart. */
module ProbeContrast {
  import opened Prelude
  import opened Keys
  import opened CausalGraph
  import opened CausalRanking

  /** `_candidate_effect`: what one observation would mean for one candidate. */
  datatype Effect = Effect(hypothesis: string, rank: nat, onPath: bool, predicted: Option<Strength>,
                           expected: Option<string>, falsifier: bool, condition: Option<string>, tested: bool)

  type Pair = (string, string)

  // ----- one candidate

  /** STRENGTH_ORDER. */
  function StrengthOrder(s: Option<Strength>): (r: int)
    ensures -1 <= r <= 2
  {
    match s case None => -1 case Some(x) => StrengthRank(x)
  }

  function OrderOf(p: Option<Prediction>): int { if p.None? then -1 else StrengthRank(p.value.strength) }

  function Best(ps: seq<Prediction>, o: string): Option<Prediction>
  {
    if ps == [] then None
    else
      var best, last := Best(ps[..|ps| - 1], o), ps[|ps| - 1];
      if last.observation == o && StrengthRank(last.strength) > OrderOf(best) then Some(last) else best
  }

  /** It is the first of the strongest predictions of the observation, and none only if there is none. */
  lemma {:induction false} BestIsFirstStrongest(ps: seq<Prediction>, o: string)
    ensures Best(ps, o).None? <==> forall j :: 0 <= j < |ps| ==> ps[j].observation != o
    ensures Best(ps, o).Some? ==> exists i :: 0 <= i < |ps| && FirstStrongest(ps, o, i) && Best(ps, o) == Some(ps[i])
  {
    if ps != [] {
      var rest, n := ps[..|ps| - 1], |ps| - 1;
      BestIsFirstStrongest(rest, o);
      assert ps == rest + [ps[n]];
      if Best(rest, o).Some? {
        var i :| 0 <= i < n && FirstStrongest(rest, o, i) && Best(rest, o) == Some(rest[i]);
        assert rest[i] == ps[i];
        assert forall j :: 0 <= j < n ==> rest[j] == ps[j];
        if Best(ps, o) == Best(rest, o) { assert FirstStrongest(ps, o, i); } else { assert FirstStrongest(ps, o, n); }
      } else {
        assert forall j :: 0 <= j < n ==> rest[j] == ps[j];
        assert ps[n].observation == o ==> FirstStrongest(ps, o, n);
      }
    }
  }

  predicate FirstStrongest(ps: seq<Prediction>, o: string, i: nat)
    requires i < |ps|
  {
    && ps[i].observation == o
    && forall j :: 0 <= j < |ps| && ps[j].observation == o ==>
         if j < i then StrengthRank(ps[j].strength) < StrengthRank(ps[i].strength)
         else StrengthRank(ps[j].strength) <= StrengthRank(ps[i].strength)
  }

  /** `_prediction`. */
  method BestPrediction(h: Concept, o: string) returns (best: Option<Prediction>)
    requires h.Hypothesis?
    ensures best == Best(h.predictions, o)
    ensures best.None? <==> forall j :: 0 <= j < |h.predictions| ==> h.predictions[j].observation != o
    ensures best.Some? ==>
              exists i :: 0 <= i < |h.predictions| && FirstStrongest(h.predictions, o, i) &&
                          best == Some(h.predictions[i])
  {
    var ps := h.predictions;
    best := None;
    for i := 0 to |ps|
      invariant best == Best(ps[..i], o)
    {
      assert ps[..i + 1][..i] == ps[..i];
      if ps[i].observation != o { continue; }
      if best.None? || StrengthRank(ps[i].strength) > OrderOf(best) { best := Some(ps[i]); }
    }
    assert ps[..|ps|] == ps;
    BestIsFirstStrongest(ps, o);
  }

  function FirstFalsifier(fs: seq<Falsifier>, o: string): (r: Option<Falsifier>)
    ensures r.None? <==> forall j :: 0 <= j < |fs| ==> fs[j].observation != o
    ensures r.Some? ==> exists i :: 0 <= i < |fs| && r == Some(fs[i]) && fs[i].observation == o &&
                                    forall j :: 0 <= j < i ==> fs[j].observation != o
  {
    if fs == [] then None
    else if fs[0].observation == o then Some(fs[0])
    else
      assert forall j :: 0 < j < |fs| ==> fs[j] == fs[1..][j - 1];
      FirstFalsifier(fs[1..], o)
  }

  /** `_falsifier`. */
  method FindFalsifier(h: Concept, o: string) returns (r: Option<Falsifier>)
    requires h.Hypothesis?
    ensures r == FirstFalsifier(h.falsifiers, o)
  {
    var fs := h.falsifiers;
    for i := 0 to |fs|
      invariant forall j :: 0 <= j < i ==> fs[j].observation != o
    {
      if fs[i].observation == o { return Some(fs[i]); }
    }
    return None;
  }

  ghost function EffectOf(concepts: Concepts, probe: string, o: string, c: Candidate): Effect
    requires IsHypothesis(concepts, c.source)
  {
    var h := concepts[c.source];
    var best, falsifier := Best(h.predictions, o), FirstFalsifier(h.falsifiers, o);
    Effect(c.source, c.rank, o in Intermediate(c.route.nodes), StrengthOf(best), Expected(best), falsifier.Some?,
           Condition(falsifier), probe in h.testedBy)
  }

  function StrengthOf(p: Option<Prediction>): Option<Strength> { if p.None? then None else Some(p.value.strength) }

  function Expected(p: Option<Prediction>): Option<string> { if p.None? then None else p.value.expected }

  function Condition(f: Option<Falsifier>): Option<string> { if f.None? then None else f.value.condition }

  method CandidateEffect(concepts: Concepts, probe: string, o: string, c: Candidate) returns (e: Effect)
    requires IsHypothesis(concepts, c.source)
    ensures e == EffectOf(concepts, probe, o, c)
  {
    var h := concepts[c.source];
    var best := BestPrediction(h, o);
    var falsifier := FindFalsifier(h, o);
    e := Effect(c.source, c.rank, o in Intermediate(c.route.nodes), StrengthOf(best), Expected(best), falsifier.Some?,
                Condition(falsifier), probe in h.testedBy);
  }

  // ----- two candidates

  /** `_observed_signature` and `_absent_signature`: the factors an outcome would change. */
  function ObservedSignature(e: Effect): (int, int)
  {
    (if e.onPath then 1 else 0, StrengthOrder(e.predicted))
  }

  function AbsentSignature(e: Effect): (int, int)
  {
    (if e.onPath then 1 else 0, if e.falsifier then 1 else 0)
  }

  function Differ(b: bool): nat { if b then 1 else 0 }

  /** `_contrast_components`: under the observed and under the absent outcome. */
  function ContrastComponents(l: Effect, r: Effect): (nat, nat)
  {
    (Differ(l.onPath != r.onPath) + Differ(StrengthOrder(l.predicted) != StrengthOrder(r.predicted)),
     Differ(l.onPath != r.onPath) + Differ(l.falsifier != r.falsifier))
  }

  function Weight(l: Effect, r: Effect): nat
  {
    ContrastComponents(l, r).0 + ContrastComponents(l, r).1
  }

  /** A signature differs exactly when its outcome counts at least one component, and then at most two. */
  lemma SignatureCounts(l: Effect, r: Effect)
    ensures var (o, a) := ContrastComponents(l, r);
            && (ObservedSignature(l) != ObservedSignature(r) <==> 1 <= o) && o <= 2
            && (AbsentSignature(l) != AbsentSignature(r) <==> 1 <= a) && a <= 2
  {
  }

  // ----- all candidates

  ghost predicate Distinct(es: seq<Effect>)
  {
    forall i, j :: 0 <= i < j < |es| ==> es[i].hypothesis != es[j].hypothesis
  }

  function PairAt(es: seq<Effect>, i: nat, j: nat): Pair
    requires i < j < |es|
  {
    (es[i].hypothesis, es[j].hypothesis)
  }

  /** The components of candidate i against the candidates after it, up to but excluding j. */
  ghost function Row(es: seq<Effect>, i: nat, j: nat): nat
    requires i < j <= |es|
  {
    if j == i + 1 then 0 else Row(es, i, j - 1) + Weight(es[i], es[j - 1])
  }

  /** The components of the first n candidates against all those after them. */
  ghost function Triangle(es: seq<Effect>, n: nat): nat
    requires n <= |es|
  {
    if n == 0 then 0 else Triangle(es, n - 1) + Row(es, n - 1, |es|)
  }

  lemma {:induction false} FirstRowCounted(es: seq<Effect>, n: nat)
    requires 1 <= n <= |es|
    ensures Row(es, 0, |es|) <= Triangle(es, n)
  {
    if n > 1 { FirstRowCounted(es, n - 1); }
  }

  // ----- listing in candidate order

  /** The position of a hypothesis among the candidates. */
  function Position(names: seq<string>, name: string): (r: nat)
    ensures r <= |names| && (r < |names| ==> names[r] == name)
    ensures forall j :: 0 <= j < r ==> names[j] != name
  {
    if names == [] || names[0] == name then 0 else 1 + Position(names[1..], name)
  }

  function PositionKey(names: seq<string>): string -> Key { name => Num(Position(names, name)) }

  function PairKey(names: seq<string>): Pair -> Key
  {
    (p: Pair) => Tuple([Num(Position(names, p.0)), Num(Position(names, p.1))])
  }

  /** The elements of s, each once. */
  ghost predicate OnceEach<T(!new)>(list: seq<T>, s: set<T>)
  {
    (forall x :: x in list <==> x in s) && forall i, j :: 0 <= i < j < |list| ==> list[i] != list[j]
  }

  /** The hypotheses of s, each once, as they come among the candidates. */
  ghost predicate NamesInOrder(names: seq<string>, list: seq<string>, s: set<string>)
  {
    && OnceEach(list, s)
    && forall i, j :: 0 <= i < j < |list| ==> Position(names, list[i]) <= Position(names, list[j])
  }

  /** The pairs of s, each once, by the place of the first and then of the second hypothesis. */
  ghost predicate PairsInOrder(names: seq<string>, list: seq<Pair>, s: set<Pair>)
  {
    OnceEach(list, s) && forall i, j :: 0 <= i < j < |list| ==> NotAfter(names, list[i], list[j])
  }

  predicate NotAfter(names: seq<string>, p: Pair, q: Pair)
  {
    || Position(names, p.0) < Position(names, q.0)
    || (Position(names, p.0) == Position(names, q.0) && Position(names, p.1) <= Position(names, q.1))
  }

  method SortNames(names: seq<string>, s: set<string>) returns (r: seq<string>)
    ensures NamesInOrder(names, r, s)
  {
    r := SortedElements(s, PositionKey(names));
  }

  method SortPairs(names: seq<string>, s: set<Pair>) returns (r: seq<Pair>)
    ensures PairsInOrder(names, r, s)
  {
    r := SortedElements(s, PairKey(names));
    forall i, j | 0 <= i < j < |r| ensures NotAfter(names, r[i], r[j]) {
      assert Leq(PairKey(names)(r[i]), PairKey(names)(r[j]));
      KeyNotAfter(names, r[i], r[j]);
    }
  }

  lemma KeyNotAfter(names: seq<string>, p: Pair, q: Pair)
    requires Leq(PairKey(names)(p), PairKey(names)(q))
    ensures NotAfter(names, p, q)
  {
    var P, Q := PairKey(names)(p).parts, PairKey(names)(q).parts;
    assert P[0] == Num(Position(names, p.0)) && P[1] == Num(Position(names, p.1));
    assert Q[0] == Num(Position(names, q.0)) && Q[1] == Num(Position(names, q.1));
    FirstDifference(P, Q);
  }

  function Hypotheses(es: seq<Effect>): (r: seq<string>)
    ensures |r| == |es| && forall i :: 0 <= i < |es| ==> r[i] == es[i].hypothesis
  {
    seq(|es|, i requires 0 <= i < |es| => es[i].hypothesis)
  }

  /** The three lists of pairs that an analysis shows. */
  datatype PairLists = PairLists(observed: seq<Pair>, absent: seq<Pair>, twoSided: seq<Pair>)

  /** `_analyze_observation`'s result: the pairs under each outcome, as sets and as listed. */
  datatype Analysis = Analysis(observation: string, effects: seq<Effect>, observed: set<Pair>, absent: set<Pair>,
                               twoSided: set<Pair>, components: nat, listed: PairLists)

  ghost predicate ListedInOrder(a: Analysis)
  {
    var names := Hypotheses(a.effects);
    && PairsInOrder(names, a.listed.observed, a.observed) && PairsInOrder(names, a.listed.absent, a.absent)
    && PairsInOrder(names, a.listed.twoSided, a.twoSided)
  }

  ghost predicate Lists(es: seq<Effect>, pairs: set<Pair>, which: bool)
  {
    && (forall i, j {:trigger PairAt(es, i, j)} :: 0 <= i < j < |es| ==>
          (PairAt(es, i, j) in pairs <==> Component(es, i, j, which) > 0))
    && (forall p :: p in pairs ==> IsPair(es, p))
  }

  ghost predicate IsPair(es: seq<Effect>, p: Pair)
  {
    exists i, j {:trigger PairAt(es, i, j)} :: 0 <= i < j < |es| && p == PairAt(es, i, j)
  }

  /** The components of candidates i and j if the observation is made (which) or is absent. */
  ghost function Component(es: seq<Effect>, i: nat, j: nat, which: bool): nat
    requires i < j < |es|
  {
    var c := ContrastComponents(es[i], es[j]);
    if which then c.0 else c.1
  }

  ghost function Effects(concepts: Concepts, probe: string, o: string, cs: seq<Candidate>): (r: seq<Effect>)
    requires forall c :: c in cs ==> IsHypothesis(concepts, c.source)
    ensures |r| == |cs| && forall i :: 0 <= i < |cs| ==> r[i] == EffectOf(concepts, probe, o, cs[i])
  {
    seq(|cs|, i requires 0 <= i < |cs| => EffectOf(concepts, probe, o, cs[i]))
  }

  /**
    A pair is listed under an outcome iff the outcome's component count is positive; the
    total counts every pair of candidates, and lies between one and two per listing.
   */
  ghost predicate Analyzed(a: Analysis)
  {
    && Lists(a.effects, a.observed, true) && Lists(a.effects, a.absent, false)
    && a.twoSided == a.observed * a.absent
    && a.components == Triangle(a.effects, |a.effects|)
    && |a.observed| + |a.absent| <= a.components <= 2 * (|a.observed| + |a.absent|)
    && ListedInOrder(a)
  }

  ghost function Sum(s: set<Pair>, m: map<Pair, nat>): nat
    requires s <= m.Keys
  {
    if s == {} then 0 else var p :| p in s; m[p] + Sum(s - {p}, m)
  }

  lemma {:induction false} SumTakes(s: set<Pair>, m: map<Pair, nat>, q: Pair)
    requires s <= m.Keys && q in s
    ensures Sum(s, m) == m[q] + Sum(s - {q}, m)
  {
    var p :| p in s && Sum(s, m) == m[p] + Sum(s - {p}, m);
    if p != q {
      SumTakes(s - {p}, m, q);
      SumTakes(s - {q}, m, p);
      assert s - {p} - {q} == s - {q} - {p};
    }
  }

  lemma {:induction false} SumIgnores(s: set<Pair>, m: map<Pair, nat>, q: Pair, v: nat)
    requires s <= m.Keys && q !in s
    ensures Sum(s, m[q := v]) == Sum(s, m)
  {
    if s != {} {
      var p :| p in s;
      SumTakes(s, m, p);
      SumTakes(s, m[q := v], p);
      SumIgnores(s - {p}, m, q, v);
    }
  }

  /** The accumulators of the nested loop, and what they hold before pair (i, j) is compared. */
  datatype Tally = Tally(observed: set<Pair>, absent: set<Pair>, twoSided: set<Pair>, components: map<Pair, nat>)

  ghost predicate Before(es: seq<Effect>, i: nat, j: nat, a: nat, b: nat)
  {
    a < b < |es| && (a < i || (a == i && b < j))
  }

  ghost predicate Counted(es: seq<Effect>, i: nat, j: nat, p: Pair)
  {
    exists a, b {:trigger PairAt(es, a, b)} :: Before(es, i, j, a, b) && p == PairAt(es, a, b)
  }

  ghost predicate Entered(es: seq<Effect>, i: nat, j: nat, t: Tally)
  {
    && t.observed + t.absent <= t.components.Keys && t.twoSided == t.observed * t.absent
    && forall p :: p in t.components ==> Counted(es, i, j, p)
  }

  ghost predicate Correct(es: seq<Effect>, i: nat, j: nat, pairs: set<Pair>, which: bool)
  {
    forall a, b {:trigger PairAt(es, a, b)} :: Before(es, i, j, a, b) ==>
      (PairAt(es, a, b) in pairs <==> Component(es, a, b, which) > 0)
  }

  ghost predicate Totalled(es: seq<Effect>, i: nat, j: nat, t: Tally)
    requires i < j <= |es| && t.observed + t.absent <= t.components.Keys
  {
    && Sum(t.observed + t.absent, t.components) == Triangle(es, i) + Row(es, i, j)
    && |t.observed| + |t.absent| <= Triangle(es, i) + Row(es, i, j) <= 2 * (|t.observed| + |t.absent|)
  }

  ghost predicate Partial(es: seq<Effect>, i: nat, j: nat, t: Tally)
    requires i < j <= |es|
  {
    && Entered(es, i, j, t) && Correct(es, i, j, t.observed, true) && Correct(es, i, j, t.absent, false)
    && Totalled(es, i, j, t)
  }

  /** The body of the inner loop. */
  function Compare(es: seq<Effect>, i: nat, j: nat, t: Tally): Tally
    requires i < j < |es|
  {
    var p, (o, a) := PairAt(es, i, j), ContrastComponents(es[i], es[j]);
    var observed := if ObservedSignature(es[i]) != ObservedSignature(es[j]) then t.observed + {p} else t.observed;
    var absent := if AbsentSignature(es[i]) != AbsentSignature(es[j]) then t.absent + {p} else t.absent;
    var twoSided := if p in observed && p in absent then t.twoSided + {p} else t.twoSided;
    Tally(observed, absent, twoSided, t.components[p := o + a])
  }

  lemma NewPair(es: seq<Effect>, i: nat, j: nat)
    requires Distinct(es) && i < j < |es|
    ensures !Counted(es, i, j, PairAt(es, i, j))
    ensures forall a, b {:trigger PairAt(es, a, b)} :: Before(es, i, j, a, b) ==> PairAt(es, a, b) != PairAt(es, i, j)
  {
  }

  lemma SumAfter(s: set<Pair>, m: map<Pair, nat>, p: Pair, v: nat, added: bool)
    requires s <= m.Keys && p !in m
    ensures Sum(if added then s + {p} else s, m[p := v]) == Sum(s, m) + if added then v else 0
  {
    SumIgnores(s, m, p, v);
    if added {
      SumTakes(s + {p}, m[p := v], p);
      assert s + {p} - {p} == s;
    }
  }

  /** What one comparison adds to each accumulator. */
  lemma CompareAdds(es: seq<Effect>, i: nat, j: nat, t: Tally)
    requires i < j < |es|
    ensures var u, p := Compare(es, i, j, t), PairAt(es, i, j);
            && u.observed == (if Component(es, i, j, true) > 0 then t.observed + {p} else t.observed)
            && u.absent == (if Component(es, i, j, false) > 0 then t.absent + {p} else t.absent)
            && u.components == t.components[p := Weight(es[i], es[j])]
            && Component(es, i, j, true) <= 2 && Component(es, i, j, false) <= 2
            && Weight(es[i], es[j]) == Component(es, i, j, true) + Component(es, i, j, false)
            && u.observed + u.absent == (if Weight(es[i], es[j]) > 0 then t.observed + t.absent + {p}
                                         else t.observed + t.absent)
            && (p !in t.components && Entered(es, i, j, t) ==> u.twoSided == u.observed * u.absent)
  {
    SignatureCounts(es[i], es[j]);
  }

  lemma ListingCounts(s: set<Pair>, p: Pair, n: nat)
    requires p !in s && n <= 2
    ensures var r := if n > 0 then s + {p} else s; |r| - |s| <= n <= 2 * (|r| - |s|)
  {
  }

  lemma CompareTotals(es: seq<Effect>, i: nat, j: nat, t: Tally)
    requires i < j < |es| && PairAt(es, i, j) !in t.components
    requires t.observed + t.absent <= t.components.Keys && Totalled(es, i, j, t)
    ensures var u := Compare(es, i, j, t); u.observed + u.absent <= u.components.Keys && Totalled(es, i, j + 1, u)
  {
    hide Compare;
    hide Component;
    hide Weight;
    hide Sum;
    var p, o, a := PairAt(es, i, j), Component(es, i, j, true), Component(es, i, j, false);
    assert Row(es, i, j + 1) == Row(es, i, j) + Weight(es[i], es[j]);
    hide Row;
    hide Triangle;
    hide PairAt;
    CompareAdds(es, i, j, t);
    assert p !in t.observed && p !in t.absent;
    ListingCounts(t.observed, p, o);
    ListingCounts(t.absent, p, a);
    SumAfter(t.observed + t.absent, t.components, p, Weight(es[i], es[j]), Weight(es[i], es[j]) > 0);
  }

  lemma CompareCorrect(es: seq<Effect>, i: nat, j: nat, pairs: set<Pair>, which: bool)
    requires Distinct(es) && i < j < |es| && Correct(es, i, j, pairs, which) && PairAt(es, i, j) !in pairs
    ensures Correct(es, i, j + 1, if Component(es, i, j, which) > 0 then pairs + {PairAt(es, i, j)} else pairs, which)
  {
    hide Component;
    NewPair(es, i, j);
    hide Distinct;
  }

  lemma CompareEnters(es: seq<Effect>, i: nat, j: nat, t: Tally)
    requires i < j < |es| && Entered(es, i, j, t) && PairAt(es, i, j) !in t.components
    ensures Entered(es, i, j + 1, Compare(es, i, j, t))
  {
    hide Component;
    hide Weight;
    CompareAdds(es, i, j, t);
    var u, q := Compare(es, i, j, t), PairAt(es, i, j);
    hide Compare;
    forall p | p in u.components ensures Counted(es, i, j + 1, p) {
      if p == q {
        assert Before(es, i, j + 1, i, j);
      } else {
        var a, b :| Before(es, i, j, a, b) && p == PairAt(es, a, b);
        assert Before(es, i, j + 1, a, b);
      }
    }
  }

  lemma CompareKeeps(es: seq<Effect>, i: nat, j: nat, t: Tally)
    requires Distinct(es) && i < j < |es| && Partial(es, i, j, t)
    ensures Partial(es, i, j + 1, Compare(es, i, j, t))
  {
    hide Sum;
    hide Compare;
    hide Totalled;
    hide Correct;
    hide Component;
    NewPair(es, i, j);
    hide Counted;
    CompareEnters(es, i, j, t);
    CompareTotals(es, i, j, t);
    CompareAdds(es, i, j, t);
    CompareCorrect(es, i, j, t.observed, true);
    CompareCorrect(es, i, j, t.absent, false);
  }

  lemma SameRange(es: seq<Effect>, i: nat, a: nat, b: nat)
    ensures Before(es, i, |es|, a, b) <==> Before(es, i + 1, i + 2, a, b)
  {
  }

  lemma NextRowPairs(es: seq<Effect>, i: nat, t: Tally)
    requires i + 1 < |es| && Entered(es, i, |es|, t)
    ensures Entered(es, i + 1, i + 2, t)
  {
    forall p | p in t.components ensures Counted(es, i + 1, i + 2, p) {
      var a, b :| Before(es, i, |es|, a, b) && p == PairAt(es, a, b);
      SameRange(es, i, a, b);
    }
  }

  lemma NextRowCorrect(es: seq<Effect>, i: nat, pairs: set<Pair>, which: bool)
    requires i + 1 < |es| && Correct(es, i, |es|, pairs, which)
    ensures Correct(es, i + 1, i + 2, pairs, which)
  {
    hide Component;
  }

  lemma NextRow(es: seq<Effect>, i: nat, t: Tally)
    requires i + 1 < |es| && Partial(es, i, |es|, t)
    ensures Partial(es, i + 1, i + 2, t)
  {
    hide Sum;
    hide Counted;
    hide Correct;
    NextRowPairs(es, i, t);
    NextRowCorrect(es, i, t.observed, true);
    NextRowCorrect(es, i, t.absent, false);
  }

  lemma AllListed(es: seq<Effect>, pairs: set<Pair>, which: bool)
    requires es != [] && Correct(es, |es| - 1, |es|, pairs, which)
    requires forall p :: p in pairs ==> Counted(es, |es| - 1, |es|, p)
    ensures Lists(es, pairs, which)
  {
    hide Component;
    forall p | p in pairs ensures IsPair(es, p) {
      var a, b :| Before(es, |es| - 1, |es|, a, b) && p == PairAt(es, a, b);
    }
    forall i, j {:trigger PairAt(es, i, j)} | 0 <= i < j < |es|
      ensures PairAt(es, i, j) in pairs <==> Component(es, i, j, which) > 0
    {
      assert Before(es, |es| - 1, |es|, i, j);
    }
  }

  lemma {:induction false} AllCounted(es: seq<Effect>, t: Tally)
    requires es != [] && Partial(es, |es| - 1, |es|, t)
    ensures Lists(es, t.observed, true) && Lists(es, t.absent, false) && t.twoSided == t.observed * t.absent
    ensures t.observed + t.absent <= t.components.Keys
    ensures Sum(t.observed + t.absent, t.components) == Triangle(es, |es|)
    ensures |t.observed| + |t.absent| <= Triangle(es, |es|) <= 2 * (|t.observed| + |t.absent|)
  {
    hide Sum;
    hide Correct;
    hide Counted;
    hide Lists;
    AllListed(es, t.observed, true);
    AllListed(es, t.absent, false);
  }

  /** `_analyze_observation`; each hypothesis is a candidate once. */
  method AnalyzeObservation(o: string, probe: string, cs: seq<Candidate>, concepts: Concepts) returns (r: Analysis)
    requires forall c :: c in cs ==> IsHypothesis(concepts, c.source)
    requires forall i, j :: 0 <= i < j < |cs| ==> cs[i].source != cs[j].source
    ensures r.observation == o && r.effects == Effects(concepts, probe, o, cs) && Analyzed(r)
  {
    hide Sum;
    hide ContrastComponents;
    hide EffectOf;
    hide Partial;
    hide Lists;
    hide Compare;
    hide Triangle;
    hide Distinct;
    hide ListedInOrder;
    var es: seq<Effect> := [];
    for k := 0 to |cs|
      invariant es == Effects(concepts, probe, o, cs)[..k]
    {
      var e := CandidateEffect(concepts, probe, o, cs[k]);
      es := es + [e];
    }
    EffectsDistinct(concepts, probe, o, cs);
    assert es == Effects(concepts, probe, o, cs);
    if es == [] {
      NothingListed();
      r := ListPairs(o, es, {}, {}, {}, 0);
      return;
    }
    var t := Tally({}, {}, {}, map[]);
    EmptyTally(es);
    for i := 0 to |es|
      invariant Partial(es, if i < |es| then i else |es| - 1, if i < |es| then i + 1 else |es|, t)
    {
      for j := i + 1 to |es|
        invariant Partial(es, i, j, t)
      {
        assert Distinct(es);
        CompareKeeps(es, i, j, t);
        t := Compare(es, i, j, t);
      }
      if i + 1 < |es| { NextRow(es, i, t); }
    }
    AllCounted(es, t);
    var n := SumPairs(t.observed + t.absent, t.components);
    r := ListPairs(o, es, t.observed, t.absent, t.twoSided, n);
  }

  /** The pairs sorted by the positions of their hypotheses. */
  method ListPairs(o: string, es: seq<Effect>, observed: set<Pair>, absent: set<Pair>, twoSided: set<Pair>, n: nat)
    returns (r: Analysis)
    ensures r == Analysis(o, es, observed, absent, twoSided, n, r.listed) && ListedInOrder(r)
  {
    hide PairsInOrder;
    var first := SortPairs(Hypotheses(es), observed);
    var second := SortPairs(Hypotheses(es), absent);
    var third := SortPairs(Hypotheses(es), twoSided);
    r := Analysis(o, es, observed, absent, twoSided, n, PairLists(first, second, third));
  }

  lemma EffectsDistinct(concepts: Concepts, probe: string, o: string, cs: seq<Candidate>)
    requires forall c :: c in cs ==> IsHypothesis(concepts, c.source)
    requires forall i, j :: 0 <= i < j < |cs| ==> cs[i].source != cs[j].source
    ensures Distinct(Effects(concepts, probe, o, cs))
  {
  }

  lemma NothingListed()
    ensures Lists([], {}, true) && Lists([], {}, false) && Triangle([], 0) == 0
  {
  }

  lemma EmptyTally(es: seq<Effect>)
    requires es != []
    ensures Partial(es, 0, 1, Tally({}, {}, {}, map[]))
  {
  }

  method SumPairs(s: set<Pair>, m: map<Pair, nat>) returns (n: nat)
    requires s <= m.Keys
    ensures n == Sum(s, m)
  {
    n := 0;
    var rest := s;
    while rest != {}
      invariant rest <= s
      invariant n + Sum(rest, m) == Sum(s, m)
      decreases |rest|
    {
      var p :| p in rest;
      SumTakes(rest, m, p);
      n, rest := n + m[p], rest - {p};
    }
  }
}
