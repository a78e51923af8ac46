/** scripts/probe_ranking.py: ranking the probes that could tell the current candidates apart. */
module ProbeRanking {
  import opened Prelude
  import opened Keys
  import opened CausalRanking
  import opened ProbeContrast

  // ----- what the ranking accepts

  ghost predicate KnownProbe(concepts: Concepts, probe: string)
  {
    && probe in concepts && concepts[probe].Probe?
    && forall o :: o in concepts[probe].produces ==> o in concepts && concepts[o].Observation?
  }

  ghost predicate KnownHypothesis(concepts: Concepts, id: string)
  {
    IsHypothesis(concepts, id) && forall p :: p in concepts[id].testedBy ==> KnownProbe(concepts, p)
  }

  /** Every candidate is a known hypothesis with known probes, and none is listed twice. */
  ghost predicate ValidReferences(concepts: Concepts, cs: seq<Candidate>)
  {
    && (forall i :: 0 <= i < |cs| ==> KnownHypothesis(concepts, cs[i].source))
    && (forall i, j :: 0 <= i < j < |cs| ==> cs[i].source != cs[j].source)
  }

  method ProbeKnown(concepts: Concepts, probe: string) returns (ok: bool)
    ensures ok <==> KnownProbe(concepts, probe)
  {
    if probe !in concepts || !concepts[probe].Probe? { return false; }
    var os := concepts[probe].produces;
    for i := 0 to |os|
      invariant forall k :: 0 <= k < i ==> os[k] in concepts && concepts[os[k]].Observation?
    {
      if os[i] !in concepts || !concepts[os[i]].Observation? { return false; }
    }
    return true;
  }

  /** `validate_references`. */
  method ValidateReferences(concepts: Concepts, cs: seq<Candidate>) returns (ok: bool)
    ensures ok <==> ValidReferences(concepts, cs)
  {
    hide KnownProbe;
    var seen: set<string> := {};
    for i := 0 to |cs|
      invariant forall k :: 0 <= k < i ==> KnownHypothesis(concepts, cs[k].source) && cs[k].source in seen
      invariant forall s :: s in seen ==> exists k :: 0 <= k < i && cs[k].source == s
      invariant forall k, l :: 0 <= k < l < i ==> cs[k].source != cs[l].source
    {
      var id := cs[i].source;
      if !IsHypothesis(concepts, id) || id in seen { return false; }
      seen := seen + {id};
      var probes := concepts[id].testedBy;
      for k := 0 to |probes|
        invariant forall l :: 0 <= l < k ==> KnownProbe(concepts, probes[l])
      {
        var known := ProbeKnown(concepts, probes[k]);
        if !known {
          assert probes[k] in concepts[cs[i].source].testedBy;
          return false;
        }
      }
    }
    return true;
  }

  // ----- one probe

  /** The alternatives and pairs that tell candidates apart, in candidate order. */
  datatype FactorLists = FactorLists(topTwoSided: seq<string>, topDiscriminated: seq<string>, twoSided: seq<Pair>,
                                     discriminated: seq<Pair>)

  /** A probe of the ranking; `unresolved` are its open observations, `analyses` those that discriminate. */
  datatype ProbeCandidate = ProbeCandidate(rank: nat, probe: string, risk: Risk, capabilities: seq<string>,
                                           tools: seq<string>,
                                           unresolved: seq<string>, tested: seq<string>, analyses: seq<Analysis>,
                                           topTwoSided: set<string>, topDiscriminated: set<string>, topComponents: nat,
                                           twoSided: set<Pair>, discriminated: set<Pair>, components: nat,
                                           listed: FactorLists)

  /** The observations the probe could still decide, with repetitions, in order. */
  function Unresolved(os: seq<string>, resolved: set<string>): (r: seq<string>)
    ensures forall o :: o in r <==> o in os && o !in resolved
  {
    if os == [] then []
    else (if os[0] !in resolved then [os[0]] else []) + Unresolved(os[1..], resolved)
  }

  /** Some outcome of the observation tells two candidates apart. */
  ghost predicate Discriminates(es: seq<Effect>)
  {
    exists i, j {:trigger PairAt(es, i, j)} :: 0 <= i < j < |es| && Weight(es[i], es[j]) > 0
  }

  ghost predicate AllHypotheses(concepts: Concepts, cs: seq<Candidate>)
  {
    && (forall c :: c in cs ==> IsHypothesis(concepts, c.source))
    && (forall i, j :: 0 <= i < j < |cs| ==> cs[i].source != cs[j].source)
  }

  /** The unresolved observations that discriminate. */
  ghost function Deciding(concepts: Concepts, cs: seq<Candidate>, probe: string, os: seq<string>): (r: seq<string>)
    requires AllHypotheses(concepts, cs)
    ensures forall o :: o in r <==> o in os && Discriminates(Effects(concepts, probe, o, cs))
  {
    if os == [] then []
    else
      var last := os[|os| - 1];
      Deciding(concepts, cs, probe, os[..|os| - 1]) +
      if Discriminates(Effects(concepts, probe, last, cs)) then [last] else []
  }

  ghost predicate Analyses(concepts: Concepts, cs: seq<Candidate>, probe: string, os: seq<string>, xs: seq<Analysis>)
    requires AllHypotheses(concepts, cs)
  {
    && |xs| == |os|
    && forall k :: 0 <= k < |xs| ==>
         xs[k].observation == os[k] && xs[k].effects == Effects(concepts, probe, os[k], cs) && Analyzed(xs[k])
  }

  ghost function TotalComponents(xs: seq<Analysis>): nat
  {
    if xs == [] then 0 else TotalComponents(xs[..|xs| - 1]) + xs[|xs| - 1].components
  }

  /** The components between the top candidate and each alternative. */
  ghost function TopComponents(xs: seq<Analysis>): nat
    requires forall k :: 0 <= k < |xs| ==> xs[k].effects != []
  {
    if xs == [] then 0
    else TopComponents(xs[..|xs| - 1]) + Row(xs[|xs| - 1].effects, 0, |xs[|xs| - 1].effects|)
  }

  ghost predicate Joined(xs: seq<Analysis>, discriminated: set<Pair>, twoSided: set<Pair>)
  {
    && (forall p :: p in discriminated <==> exists k :: 0 <= k < |xs| && p in xs[k].observed + xs[k].absent)
    && (forall p :: p in twoSided <==> exists k :: 0 <= k < |xs| && p in xs[k].observed && p in xs[k].absent)
  }

  /** The alternatives are those the listed pairs set against the top candidate. */
  ghost predicate Against(cs: seq<Candidate>, pairs: set<Pair>, alternatives: set<string>)
    requires cs != []
  {
    && (forall a :: a in alternatives ==> exists j :: 0 < j < |cs| && cs[j].source == a)
    && (forall j :: 0 < j < |cs| ==> (cs[j].source in alternatives <==> (cs[0].source, cs[j].source) in pairs))
  }

  ghost function Tested(concepts: Concepts, cs: seq<Candidate>, probe: string): (r: seq<string>)
    requires AllHypotheses(concepts, cs)
    ensures forall s :: s in r <==> exists k :: 0 <= k < |cs| && cs[k].source == s && probe in concepts[s].testedBy
  {
    if cs == [] then []
    else
      var last := cs[|cs| - 1];
      Tested(concepts, cs[..|cs| - 1], probe) + if probe in concepts[last.source].testedBy then [last.source] else []
  }

  /** Everything the ranking says about one probe. */
  ghost predicate Describes(concepts: Concepts, cs: seq<Candidate>, resolved: set<string>, c: ProbeCandidate)
    requires AllHypotheses(concepts, cs) && cs != []
  {
    && c.probe in concepts && concepts[c.probe].Probe? && c.risk == concepts[c.probe].risk
    && c.unresolved == SortBy(Unresolved(concepts[c.probe].produces, resolved), TextKey)
    && c.tested == Tested(concepts, cs, c.probe)
    && c.analyses != []
    && Analyses(concepts, cs, c.probe, Deciding(concepts, cs, c.probe, c.unresolved), c.analyses)
    && Joined(c.analyses, c.discriminated, c.twoSided)
    && Against(cs, c.discriminated, c.topDiscriminated) && Against(cs, c.twoSided, c.topTwoSided)
    && c.components == TotalComponents(c.analyses)
    && c.topComponents == TopComponents(c.analyses)
    && |c.topDiscriminated| + |c.topTwoSided| <= c.topComponents
    && c.capabilities == SortBy(concepts[c.probe].capabilities, TextKey)
    && c.tools == SortBy(concepts[c.probe].tools, TextKey)
    && ListedInCandidateOrder(cs, c)
  }

  ghost predicate ListedInCandidateOrder(cs: seq<Candidate>, c: ProbeCandidate)
  {
    var names := Sources(cs);
    && NamesInOrder(names, c.listed.topTwoSided, c.topTwoSided)
    && NamesInOrder(names, c.listed.topDiscriminated, c.topDiscriminated)
    && PairsInOrder(names, c.listed.twoSided, c.twoSided)
    && PairsInOrder(names, c.listed.discriminated, c.discriminated)
  }

  function Sources(cs: seq<Candidate>): (r: seq<string>)
    ensures |r| == |cs| && forall i :: 0 <= i < |cs| ==> r[i] == cs[i].source
  {
    seq(|cs|, i requires 0 <= i < |cs| => cs[i].source)
  }

  method ListFactors(cs: seq<Candidate>, f: Accumulators) returns (r: FactorLists)
    ensures NamesInOrder(Sources(cs), r.topTwoSided, f.topTwoSided)
    ensures NamesInOrder(Sources(cs), r.topDiscriminated, f.topDiscriminated)
    ensures PairsInOrder(Sources(cs), r.twoSided, f.twoSided)
    ensures PairsInOrder(Sources(cs), r.discriminated, f.discriminated)
  {
    hide NamesInOrder;
    hide PairsInOrder;
    var names := Sources(cs);
    var a := SortNames(names, f.topTwoSided);
    var b := SortNames(names, f.topDiscriminated);
    var c := SortPairs(names, f.twoSided);
    var d := SortPairs(names, f.discriminated);
    r := FactorLists(a, b, c, d);
  }

  /** The probe has an unresolved observation that tells two candidates apart. */
  ghost predicate Useful(concepts: Concepts, cs: seq<Candidate>, resolved: set<string>, probe: string)
    requires AllHypotheses(concepts, cs)
  {
    && probe in concepts && concepts[probe].Probe?
    && exists o :: o in concepts[probe].produces && o !in resolved && Discriminates(Effects(concepts, probe, o, cs))
  }

  lemma ListedDiscriminates(es: seq<Effect>, pairs: set<Pair>, which: bool, p: Pair)
    requires Lists(es, pairs, which) && p in pairs
    ensures Discriminates(es)
  {
    var i, j :| 0 <= i < j < |es| && p == PairAt(es, i, j);
    assert Component(es, i, j, which) > 0;
  }

  lemma DiscriminatingListed(es: seq<Effect>, observed: set<Pair>, absent: set<Pair>)
    requires Lists(es, observed, true) && Lists(es, absent, false) && Discriminates(es)
    ensures observed + absent != {}
  {
    var i, j :| 0 <= i < j < |es| && Weight(es[i], es[j]) > 0 && PairAt(es, i, j) == PairAt(es, i, j);
    assert Component(es, i, j, true) > 0 || Component(es, i, j, false) > 0;
    assert PairAt(es, i, j) in observed + absent;
  }

  lemma ListsSome(a: Analysis)
    requires Analyzed(a)
    ensures a.observed + a.absent != {} <==> Discriminates(a.effects)
  {
    hide Lists;
    hide Discriminates;
    hide ListedInOrder;
    if p :| p in a.observed { ListedDiscriminates(a.effects, a.observed, true, p); }
    if p :| p in a.absent { ListedDiscriminates(a.effects, a.absent, false, p); }
    if Discriminates(a.effects) { DiscriminatingListed(a.effects, a.observed, a.absent); }
  }

  lemma {:induction false} AnalysesMore(concepts: Concepts, cs: seq<Candidate>, probe: string, os: seq<string>, k: nat,
                                        xs: seq<Analysis>, a: Analysis)
    requires AllHypotheses(concepts, cs) && k < |os|
    requires Analyses(concepts, cs, probe, Deciding(concepts, cs, probe, os[..k]), xs)
    requires a.observation == os[k] && a.effects == Effects(concepts, probe, os[k], cs) && Analyzed(a)
    ensures Analyses(concepts, cs, probe, Deciding(concepts, cs, probe, os[..k + 1]),
                     if a.observed + a.absent != {} then xs + [a] else xs)
  {
    hide Analyzed;
    hide Discriminates;
    hide Effects;
    assert os[..k + 1][..k] == os[..k];
    ListsSome(a);
  }

  /** The analyses a probe is judged by: those of its deciding observations. */
  method AnalyzeProbe(concepts: Concepts, cs: seq<Candidate>, probe: string, os: seq<string>)
    returns (xs: seq<Analysis>)
    requires AllHypotheses(concepts, cs)
    ensures Analyses(concepts, cs, probe, Deciding(concepts, cs, probe, os), xs)
  {
    hide Analyzed;
    hide Analyses;
    hide Effects;
    hide Discriminates;
    xs := [];
    assert os[..0] == [];
    NoAnalyses(concepts, cs, probe);
    hide Deciding;
    for k := 0 to |os|
      invariant Analyses(concepts, cs, probe, Deciding(concepts, cs, probe, os[..k]), xs)
    {
      var a := AnalyzeObservation(os[k], probe, cs, concepts);
      AnalysesMore(concepts, cs, probe, os, k, xs, a);
      if a.observed != {} || a.absent != {} { xs := xs + [a]; }
    }
    assert os[..|os|] == os;
  }

  lemma {:induction false} NoAnalyses(concepts: Concepts, cs: seq<Candidate>, probe: string)
    requires AllHypotheses(concepts, cs)
    ensures Analyses(concepts, cs, probe, Deciding(concepts, cs, probe, []), [])
  {
  }

  /** The accumulators over a probe's analyses. */
  datatype Accumulators = Accumulators(discriminated: set<Pair>, twoSided: set<Pair>, topDiscriminated: set<string>,
                                       topTwoSided: set<string>,
                             components: nat, topComponents: nat)

  /** What the accumulators hold after the analyses xs. */
  ghost predicate Accumulated(cs: seq<Candidate>, xs: seq<Analysis>, f: Accumulators)
    requires cs != [] && forall k :: 0 <= k < |xs| ==> xs[k].effects != []
  {
    && Joined(xs, f.discriminated, f.twoSided)
    && Against(cs, f.discriminated, f.topDiscriminated) && Against(cs, f.twoSided, f.topTwoSided)
    && f.components == TotalComponents(xs) && f.topComponents == TopComponents(xs)
    && |f.topDiscriminated| + |f.topTwoSided| <= f.topComponents
  }

  lemma JoinMore(xs: seq<Analysis>, a: Analysis, discriminated: set<Pair>, twoSided: set<Pair>)
    requires Joined(xs, discriminated, twoSided)
    ensures Joined(xs + [a], discriminated + a.observed + a.absent, twoSided + a.observed * a.absent)
  {
    var ys := xs + [a];
    assert ys[|xs|] == a;
    forall p | p in discriminated ensures exists k :: 0 <= k < |ys| && p in ys[k].observed + ys[k].absent {
      var k :| 0 <= k < |xs| && p in xs[k].observed + xs[k].absent;
      assert ys[k] == xs[k];
    }
    forall p | p in twoSided ensures exists k :: 0 <= k < |ys| && p in ys[k].observed && p in ys[k].absent {
      var k :| 0 <= k < |xs| && p in xs[k].observed && p in xs[k].absent;
      assert ys[k] == xs[k];
    }
  }

  /** The set-against-the-top bookkeeping before alternative j: only earlier ones know the new pairs. */
  ghost predicate Halfway(cs: seq<Candidate>, j: nat, before: set<Pair>, after: set<Pair>, alternatives: set<string>)
    requires cs != [] && j <= |cs|
  {
    && (forall a :: a in alternatives ==> exists k :: 0 < k < |cs| && cs[k].source == a)
    && (forall k :: 0 < k < |cs| ==>
          (cs[k].source in alternatives <==> (cs[0].source, cs[k].source) in if k < j then after else before))
  }

  lemma HalfwayOn(cs: seq<Candidate>, j: nat, before: set<Pair>, after: set<Pair>, alternatives: set<string>,
                  more: bool)
    requires 0 < j < |cs| && before <= after && Halfway(cs, j, before, after, alternatives)
    requires forall i, k :: 0 <= i < k < |cs| ==> cs[i].source != cs[k].source
    requires (cs[0].source, cs[j].source) in after <==> more || (cs[0].source, cs[j].source) in before
    ensures var next := if more then alternatives + {cs[j].source} else alternatives;
            Halfway(cs, j + 1, before, after, next) && |next| <= |alternatives| + Differ(more)
  {
  }

  lemma HalfwayBegins(cs: seq<Candidate>, before: set<Pair>, after: set<Pair>, alternatives: set<string>)
    requires cs != [] && Against(cs, before, alternatives)
    ensures Halfway(cs, 1, before, after, alternatives)
  {
  }

  lemma HalfwayEnds(cs: seq<Candidate>, before: set<Pair>, after: set<Pair>, alternatives: set<string>)
    requires cs != [] && Halfway(cs, |cs|, before, after, alternatives)
    ensures Against(cs, after, alternatives)
  {
  }

  /** One analysis's share of the loop over the alternatives. */
  method CountTop(cs: seq<Candidate>, a: Analysis, ghost discriminated: set<Pair>, ghost twoSided: set<Pair>,
                  topDiscriminated: set<string>, topTwoSided: set<string>)
    returns (disc: set<string>, two: set<string>, n: nat)
    requires forall i, k :: 0 <= i < k < |cs| ==> cs[i].source != cs[k].source
    requires cs != [] && Analyzed(a) && |a.effects| == |cs|
    requires forall k :: 0 <= k < |cs| ==> a.effects[k].hypothesis == cs[k].source
    requires Against(cs, discriminated, topDiscriminated) && Against(cs, twoSided, topTwoSided)
    ensures Against(cs, discriminated + a.observed + a.absent, disc)
    ensures Against(cs, twoSided + a.observed * a.absent, two)
    ensures n == Row(a.effects, 0, |cs|)
    ensures |disc| + |two| <= |topDiscriminated| + |topTwoSided| + n
  {
    hide Analyzed;
    hide Against;
    hide Halfway;
    hide Weight;
    var es := a.effects;
    ghost var all, both := discriminated + a.observed + a.absent, twoSided + a.observed * a.absent;
    disc, two, n := topDiscriminated, topTwoSided, 0;
    HalfwayBegins(cs, discriminated, all, disc);
    HalfwayBegins(cs, twoSided, both, two);
    for j := 1 to |cs|
      invariant Halfway(cs, j, discriminated, all, disc) && Halfway(cs, j, twoSided, both, two)
      invariant n == Row(es, 0, j)
      invariant |disc| + |two| <= |topDiscriminated| + |topTwoSided| + n
    {
      var p := (cs[0].source, cs[j].source);
      var distinguishes, twoWays := p in a.observed || p in a.absent, p in a.observed && p in a.absent;
      AlternativeCounts(a, j);
      HalfwayOn(cs, j, discriminated, all, disc, distinguishes);
      HalfwayOn(cs, j, twoSided, both, two, twoWays);
      if distinguishes { disc := disc + {cs[j].source}; }
      if twoWays { two := two + {cs[j].source}; }
      n := n + Weight(es[0], es[j]);
    }
    HalfwayEnds(cs, discriminated, all, disc);
    HalfwayEnds(cs, twoSided, both, two);
  }

  lemma AlternativeCounts(a: Analysis, j: nat)
    requires Analyzed(a) && 0 < j < |a.effects|
    ensures var p := PairAt(a.effects, 0, j);
            Differ(p in a.observed || p in a.absent) + Differ(p in a.observed && p in a.absent) <=
            Weight(a.effects[0], a.effects[j])
  {
    assert Component(a.effects, 0, j, true) + Component(a.effects, 0, j, false) == Weight(a.effects[0], a.effects[j]);
  }

  /** The accumulators after one more analysis. */
  lemma AccumulatedMore(cs: seq<Candidate>, xs: seq<Analysis>, a: Analysis, f: Accumulators, disc: set<string>,
                        two: set<string>, n: nat)
    requires cs != [] && a.effects != [] && forall k :: 0 <= k < |xs| ==> xs[k].effects != []
    requires Accumulated(cs, xs, f)
    requires Against(cs, f.discriminated + a.observed + a.absent, disc)
    requires Against(cs, f.twoSided + a.observed * a.absent, two)
    requires n == Row(a.effects, 0, |a.effects|) && |disc| + |two| <= |f.topDiscriminated| + |f.topTwoSided| + n
    ensures Accumulated(cs, xs + [a],
                        Accumulators(f.discriminated + a.observed + a.absent, f.twoSided + a.observed * a.absent, disc,
                                     two, f.components + a.components, f.topComponents + n))
  {
    hide Joined;
    hide Against;
    hide Row;
    assert (xs + [a])[..|xs|] == xs;
    JoinMore(xs, a, f.discriminated, f.twoSided);
  }

  /** What the ranking knows of each of a probe's analyses. */
  lemma AnalysisAt(concepts: Concepts, cs: seq<Candidate>, probe: string, os: seq<string>, xs: seq<Analysis>, k: nat)
    requires AllHypotheses(concepts, cs) && cs != [] && Analyses(concepts, cs, probe, os, xs) && k < |xs|
    ensures Analyzed(xs[k]) && |xs[k].effects| == |cs|
    ensures forall i :: 0 <= i < |cs| ==> xs[k].effects[i].hypothesis == cs[i].source
  {
    hide Analyzed;
  }

  /** The loop over a probe's analyses. */
  method Accumulate(concepts: Concepts, cs: seq<Candidate>, probe: string, ghost os: seq<string>, xs: seq<Analysis>)
    returns (f: Accumulators)
    requires AllHypotheses(concepts, cs) && cs != [] && Analyses(concepts, cs, probe, os, xs)
    ensures Accumulated(cs, xs, f)
  {
    hide Analyzed;
    hide Against;
    hide Joined;
    hide Row;
    hide Effects;
    f := Accumulators({}, {}, {}, {}, 0, 0);
    NothingYet(cs);
    for k := 0 to |xs|
      invariant Accumulated(cs, xs[..k], f)
    {
      var a := xs[k];
      assert xs[..k + 1] == xs[..k] + [a];
      AnalysisAt(concepts, cs, probe, os, xs, k);
      var disc, two, n := CountTop(cs, a, f.discriminated, f.twoSided, f.topDiscriminated, f.topTwoSided);
      AccumulatedMore(cs, xs[..k], a, f, disc, two, n);
      f := Accumulators(f.discriminated + a.observed + a.absent, f.twoSided + a.observed * a.absent, disc, two,
                        f.components + a.components, f.topComponents + n);
    }
    assert xs[..|xs|] == xs;
  }

  lemma NothingYet(cs: seq<Candidate>)
    requires cs != []
    ensures Joined([], {}, {}) && Against(cs, {}, {})
  {
  }

  method TestedBy(concepts: Concepts, cs: seq<Candidate>, probe: string) returns (r: seq<string>)
    requires AllHypotheses(concepts, cs)
    ensures r == Tested(concepts, cs, probe)
  {
    r := [];
    for k := 0 to |cs|
      invariant r == Tested(concepts, cs[..k], probe)
    {
      assert cs[..k + 1][..k] == cs[..k];
      if probe in concepts[cs[k].source].testedBy { r := r + [cs[k].source]; }
    }
    assert cs[..|cs|] == cs;
  }

  /** A probe is useful exactly when some analysis is left for it. */
  lemma {:induction false} UsefulIff(concepts: Concepts, cs: seq<Candidate>, resolved: set<string>, probe: string,
                                     xs: seq<Analysis>)
    requires AllHypotheses(concepts, cs) && probe in concepts && concepts[probe].Probe?
    requires Analyses(concepts, cs, probe,
                      Deciding(concepts, cs, probe, SortBy(Unresolved(concepts[probe].produces, resolved), TextKey)),
                      xs)
    ensures xs != [] <==> Useful(concepts, cs, resolved, probe)
  {
    hide Analyzed;
    hide Discriminates;
    hide Effects;
    var open := Unresolved(concepts[probe].produces, resolved);
    SortBySorts(open, TextKey);
    var deciding := Deciding(concepts, cs, probe, SortBy(open, TextKey));
    if deciding != [] { assert deciding[0] in deciding; }
    if o :| o in concepts[probe].produces && o !in resolved && Discriminates(Effects(concepts, probe, o, cs)) {
      assert o in open && o in deciding;
    }
  }

  /** The body of the loop over the probes. */
  method RankProbe(concepts: Concepts, cs: seq<Candidate>, resolved: set<string>, probe: string)
    returns (r: Option<ProbeCandidate>)
    requires AllHypotheses(concepts, cs) && cs != [] && KnownProbe(concepts, probe)
    ensures r.Some? <==> Useful(concepts, cs, resolved, probe)
    ensures r.Some? ==> r.value.probe == probe && Describes(concepts, cs, resolved, r.value)
  {
    hide Analyzed;
    hide Discriminates;
    hide Joined;
    hide Against;
    hide SortBy;
    hide Analyses;
    hide Deciding;
    hide Useful;
    hide NamesInOrder;
    hide PairsInOrder;
    hide Tested;
    var open := Unresolved(concepts[probe].produces, resolved);
    var unresolved := SortBy(open, TextKey);
    var xs := AnalyzeProbe(concepts, cs, probe, unresolved);
    ghost var deciding := Deciding(concepts, cs, probe, unresolved);
    UsefulIff(concepts, cs, resolved, probe, xs);
    if xs == [] { return None; }
    var f := Accumulate(concepts, cs, probe, deciding, xs);
    var tested := TestedBy(concepts, cs, probe);
    var listed := ListFactors(cs, f);
    r := Some(ProbeCandidate(0, probe, concepts[probe].risk, SortBy(concepts[probe].capabilities, TextKey),
                             SortBy(concepts[probe].tools, TextKey), unresolved, tested, xs, f.topTwoSided,
                             f.topDiscriminated, f.topComponents, f.twoSided, f.discriminated, f.components, listed));
  }

  // ----- the ranking

  function RiskRank(r: Risk): nat
  {
    match r case ReadOnly => 0 case Low => 1 case StateChanging => 2 case High => 3
  }

  function ProbeKeyParts(c: ProbeCandidate): seq<Key>
  {
    [ Num(-|c.topTwoSided|), Num(0 - c.topComponents), Num(-|c.topDiscriminated|), Num(-|c.twoSided|),
      Num(0 - c.components), Num(-|c.discriminated|), Num(RiskRank(c.risk)), Num(-|c.tested|), Text(c.probe) ]
  }

  /** `_probe_sort_key`. */
  function ProbeSortKey(c: ProbeCandidate): Key
  {
    Tuple(ProbeKeyParts(c))
  }

  lemma ProbeKeyNames(c: ProbeCandidate, d: ProbeCandidate)
    requires ProbeSortKey(c) == ProbeSortKey(d)
    ensures c.probe == d.probe
  {
    assert ProbeKeyParts(c)[8] == Text(c.probe) && ProbeKeyParts(d)[8] == Text(d.probe);
  }

  lemma ProbeRankIgnored(c: ProbeCandidate, n: nat)
    ensures ProbeSortKey(c.(rank := n)) == ProbeSortKey(c)
  {
  }

  // ----- what the ranking prefers

  /** Read-only before low before state-changing before high. */
  predicate Safer(a: Risk, b: Risk)
  {
    a != b && (a == ReadOnly || b == High || (a == Low && b == StateChanging))
  }

  /** The nine criteria, each in terms of the probes' own factors. */
  predicate Ahead(criterion: nat, c: ProbeCandidate, d: ProbeCandidate)
  {
    match criterion
    case 0 => |c.topTwoSided| > |d.topTwoSided|
    case 1 => c.topComponents > d.topComponents
    case 2 => |c.topDiscriminated| > |d.topDiscriminated|
    case 3 => |c.twoSided| > |d.twoSided|
    case 4 => c.components > d.components
    case 5 => |c.discriminated| > |d.discriminated|
    case 6 => Safer(c.risk, d.risk)
    case 7 => |c.tested| > |d.tested|
    case 8 => TextLess(c.probe, d.probe)
    case _ => false
  }

  predicate Tied(criterion: nat, c: ProbeCandidate, d: ProbeCandidate)
  {
    !Ahead(criterion, c, d) && !Ahead(criterion, d, c)
  }

  ghost predicate Decides(k: nat, c: ProbeCandidate, d: ProbeCandidate)
  {
    k < 9 && Ahead(k, c, d) && forall l: nat :: l < k ==> Tied(l, c, d)
  }

  /** The first criterion that does not tie the two decides for c. */
  ghost predicate Precedes(c: ProbeCandidate, d: ProbeCandidate)
  {
    exists k: nat :: Decides(k, c, d)
  }

  lemma CriterionOf(k: nat, c: ProbeCandidate, d: ProbeCandidate)
    requires k < 9
    ensures |ProbeKeyParts(c)| == |ProbeKeyParts(d)| == 9
    ensures Less(ProbeKeyParts(c)[k], ProbeKeyParts(d)[k]) ==> Ahead(k, c, d)
    ensures ProbeKeyParts(c)[k] == ProbeKeyParts(d)[k] ==> Tied(k, c, d)
  {
    TextIrreflexive(c.probe);
    hide TextLess;
    if k < 4 {
    } else if k < 6 {
    } else if k == 6 {
    } else if k == 7 {
    } else {
      assert k == 8;
    }
  }

  lemma {:induction false} SortedByPrecedence(c: ProbeCandidate, d: ProbeCandidate)
    requires Less(ProbeSortKey(c), ProbeSortKey(d))
    ensures Precedes(c, d)
  {
    var P, Q := ProbeKeyParts(c), ProbeKeyParts(d);
    assert LessAll(P, Q);
    CriterionOf(0, c, d);
    hide ProbeKeyParts;
    hide Less;
    FirstDifference(P, Q);
    var k :| 0 <= k < |P| && Less(P[k], Q[k]) && forall l :: 0 <= l < k ==> P[l] == Q[l];
    hide LessAll;
    hide Ahead;
    hide Tied;
    CriterionOf(k, c, d);
    forall l: nat | l < k ensures Tied(l, c, d) { CriterionOf(l, c, d); }
    assert Decides(k, c, d);
  }

  // ----- what is ranked

  datatype NotFound = FewerThanTwoCandidates | NoDiscriminatingProbe

  datatype Ranking = Ranking(notFound: Option<NotFound>, probes: seq<ProbeCandidate>)

  ghost predicate Suggested(concepts: Concepts, cs: seq<Candidate>, probe: string)
    requires AllHypotheses(concepts, cs)
  {
    exists k :: 0 <= k < |cs| && probe in concepts[cs[k].source].testedBy
  }

  ghost predicate Names(ps: seq<ProbeCandidate>, probe: string)
  {
    exists k :: 0 <= k < |ps| && ps[k].probe == probe
  }

  /** The probes listed are the suggested, useful ones, each described truly. */
  ghost predicate Listing(concepts: Concepts, cs: seq<Candidate>, resolved: set<string>, ps: seq<ProbeCandidate>)
    requires AllHypotheses(concepts, cs) && cs != []
  {
    && (forall k :: 0 <= k < |ps| ==> Describes(concepts, cs, resolved, ps[k]))
    && (forall p :: Names(ps, p) <==> Suggested(concepts, cs, p) && Useful(concepts, cs, resolved, p))
  }

  /** A probe listed before another precedes it by the nine criteria; the ranks count from one. */
  ghost predicate ProbesRanked(ps: seq<ProbeCandidate>)
  {
    && (forall i, j :: 0 <= i < j < |ps| ==> Precedes(ps[i], ps[j]))
    && (forall i :: 0 <= i < |ps| ==> ps[i].rank == i + 1)
  }

  function ProbeId(c: ProbeCandidate): string { c.probe }

  function RankKey(c: Candidate): Key { Num(c.rank) }

  /** The candidates in the order of their ranks, so that the first one is the top candidate. */
  ghost predicate ByRank(candidates: seq<Candidate>, cs: seq<Candidate>)
  {
    multiset(cs) == multiset(candidates) && forall i, j :: 0 <= i < j < |cs| ==> cs[i].rank <= cs[j].rank
  }

  lemma {:induction false} SortedCandidates(concepts: Concepts, cs: seq<Candidate>)
    requires ValidReferences(concepts, cs)
    ensures AllHypotheses(concepts, SortBy(cs, RankKey)) && |SortBy(cs, RankKey)| == |cs|
    ensures ByRank(cs, SortBy(cs, RankKey))
    ensures forall c :: c in SortBy(cs, RankKey) ==> KnownHypothesis(concepts, c.source)
  {
    hide KnownProbe;
    hide SortBy;
    SortBySorts(cs, RankKey);
    forall i, j | 0 <= i < j < |cs| ensures SortBy(cs, RankKey)[i].rank <= SortBy(cs, RankKey)[j].rank {
      assert Leq(RankKey(SortBy(cs, RankKey)[i]), RankKey(SortBy(cs, RankKey)[j]));
    }
    SortNamedApart(cs, RankKey, SourceId);
    forall c | c in SortBy(cs, RankKey) ensures KnownHypothesis(concepts, c.source) {
      assert c in cs;
    }
  }

  /** The ids `tested_by` any candidate. */
  method ProbeIds(concepts: Concepts, cs: seq<Candidate>) returns (ids: set<string>)
    requires AllHypotheses(concepts, cs)
    ensures forall p :: p in ids <==> Suggested(concepts, cs, p)
  {
    ids := {};
    for k := 0 to |cs|
      invariant forall p :: p in ids <==> exists l :: 0 <= l < k && p in concepts[cs[l].source].testedBy
    {
      var tested := concepts[cs[k].source].testedBy;
      ids := ids + set p | p in tested;
    }
  }

  /** `rank_probes`; resolved are the observed and absent observations and the target. */
  method RankProbes(concepts: Concepts, candidates: seq<Candidate>, resolved: set<string>)
    returns (r: Result<Ranking>, ghost cs: seq<Candidate>)
    ensures r.Raised? <==> !ValidReferences(concepts, candidates)
    ensures r.Ok? ==>
              && ByRank(candidates, cs) && AllHypotheses(concepts, cs)
              && (r.value.notFound == Some(FewerThanTwoCandidates) <==> |candidates| < 2)
              && (|candidates| < 2 ==> r.value.probes == [])
              && (|candidates| >= 2 ==>
                    && Listing(concepts, cs, resolved, r.value.probes) && ProbesRanked(r.value.probes)
                    && (r.value.notFound == Some(NoDiscriminatingProbe) <==> r.value.probes == []))
  {
    hide SortBy;
    hide KnownProbe;
    hide Less;
    hide Suggested;
    hide Useful;
    hide Describes;
    hide ProbeSortKey;
    hide Precedes;
    hide ByRank;
    var valid := ValidateReferences(concepts, candidates);
    if !valid { return Raised, []; }
    SortedCandidates(concepts, candidates);
    var sorted := SortBy(candidates, RankKey);
    cs := sorted;
    if |sorted| < 2 { return Ok(Ranking(Some(FewerThanTwoCandidates), [])), sorted; }
    var ids := ProbeIds(concepts, sorted);
    var probes := SortedElements(ids, TextKey);
    var found: seq<ProbeCandidate> := [];
    for k := 0 to |probes|
      invariant forall i :: 0 <= i < |found| ==> Describes(concepts, cs, resolved, found[i])
      invariant forall i :: 0 <= i < |found| ==>
                  found[i].probe in probes[..k] && Useful(concepts, cs, resolved, found[i].probe)
      invariant forall l :: 0 <= l < k && Useful(concepts, cs, resolved, probes[l]) ==> Names(found, probes[l])
      invariant forall i, j :: 0 <= i < j < |found| ==> found[i].probe != found[j].probe
    {
      assert probes[..k + 1] == probes[..k] + [probes[k]] && probes[k] in probes;
      SuggestedKnown(concepts, cs, probes[k]);
      var c := RankProbe(concepts, sorted, resolved, probes[k]);
      if c.Some? {
        NamesMore(found, c.value);
        found := found + [c.value];
      }
    }
    assert probes[..|probes|] == probes;
    Complete(concepts, cs, resolved, probes, found);
    var ps := Finish(concepts, sorted, resolved, found);
    r := Ok(Ranking(if ps == [] then Some(NoDiscriminatingProbe) else None, ps));
  }

  lemma SuggestedKnown(concepts: Concepts, cs: seq<Candidate>, probe: string)
    requires AllHypotheses(concepts, cs) && Suggested(concepts, cs, probe)
    requires forall c :: c in cs ==> KnownHypothesis(concepts, c.source)
    ensures KnownProbe(concepts, probe)
  {
  }

  lemma NamesMore(ps: seq<ProbeCandidate>, c: ProbeCandidate)
    ensures Names(ps + [c], c.probe) && forall p :: Names(ps, p) ==> Names(ps + [c], p)
  {
    assert (ps + [c])[|ps|] == c;
    forall p | Names(ps, p) ensures Names(ps + [c], p) {
      var k :| 0 <= k < |ps| && ps[k].probe == p;
      assert (ps + [c])[k].probe == p;
    }
  }

  lemma Complete(concepts: Concepts, cs: seq<Candidate>, resolved: set<string>, probes: seq<string>,
                 found: seq<ProbeCandidate>)
    requires AllHypotheses(concepts, cs) && cs != []
    requires forall p :: p in probes <==> Suggested(concepts, cs, p)
    requires forall i :: 0 <= i < |found| ==> Describes(concepts, cs, resolved, found[i])
    requires forall i :: 0 <= i < |found| ==> found[i].probe in probes && Useful(concepts, cs, resolved, found[i].probe)
    requires forall l :: 0 <= l < |probes| && Useful(concepts, cs, resolved, probes[l]) ==> Names(found, probes[l])
    ensures Listing(concepts, cs, resolved, found)
  {
    hide Suggested;
    hide Useful;
    hide Describes;
    forall p | Suggested(concepts, cs, p) && Useful(concepts, cs, resolved, p) ensures Names(found, p) {
      assert p in probes;
    }
  }

  /** The sort and the rank assignment at the end of `rank_probes`. */
  method Finish(concepts: Concepts, cs: seq<Candidate>, ghost resolved: set<string>, found: seq<ProbeCandidate>)
    returns (ps: seq<ProbeCandidate>)
    requires AllHypotheses(concepts, cs) && cs != [] && Listing(concepts, cs, resolved, found)
    requires forall i, j :: 0 <= i < j < |found| ==> found[i].probe != found[j].probe
    ensures Listing(concepts, cs, resolved, ps) && ProbesRanked(ps)
  {
    hide SortBy;
    hide Less;
    hide Listing;
    hide ProbeSortKey;
    forall c, d | c in found && d in found && ProbeSortKey(c) == ProbeSortKey(d) ensures ProbeId(c) == ProbeId(d) {
      ProbeKeyNames(c, d);
    }
    SortBySorts(found, ProbeSortKey);
    var sorted := SortBy(found, ProbeSortKey);
    StrictByName(found, sorted, ProbeSortKey, ProbeId);
    ps := [];
    for k := 0 to |sorted|
      invariant |ps| == k
      invariant forall i :: 0 <= i < k ==> ps[i] == sorted[i].(rank := i + 1)
    {
      ps := ps + [sorted[k].(rank := k + 1)];
    }
    Renumbered(concepts, cs, resolved, found, sorted, ps);
  }

  lemma SameNames(found: seq<ProbeCandidate>, sorted: seq<ProbeCandidate>, ps: seq<ProbeCandidate>)
    requires forall x :: x in sorted <==> x in found
    requires |ps| == |sorted| && forall i :: 0 <= i < |ps| ==> ps[i] == sorted[i].(rank := i + 1)
    ensures forall p :: Names(ps, p) <==> Names(found, p)
  {
    forall p ensures Names(ps, p) <==> Names(found, p) {
      if Names(found, p) {
        var a :| 0 <= a < |found| && found[a].probe == p;
        assert found[a] in sorted;
        var i :| 0 <= i < |sorted| && sorted[i] == found[a];
        assert ps[i].probe == p;
      }
      if Names(ps, p) {
        var i :| 0 <= i < |ps| && ps[i].probe == p;
        assert sorted[i] in found;
        var a :| 0 <= a < |found| && found[a] == sorted[i];
        assert found[a].probe == p;
      }
    }
  }

  lemma Renumbered(concepts: Concepts, cs: seq<Candidate>, resolved: set<string>, found: seq<ProbeCandidate>,
                   sorted: seq<ProbeCandidate>, ps: seq<ProbeCandidate>)
    requires AllHypotheses(concepts, cs) && cs != [] && Listing(concepts, cs, resolved, found)
    requires forall x :: x in sorted <==> x in found
    requires StrictlySorted(sorted, ProbeSortKey)
    requires |ps| == |sorted| && forall i :: 0 <= i < |ps| ==> ps[i] == sorted[i].(rank := i + 1)
    ensures Listing(concepts, cs, resolved, ps) && ProbesRanked(ps)
  {
    hide Less;
    hide ProbeSortKey;
    hide Suggested;
    hide Useful;
    hide Describes;
    hide Names;
    hide Precedes;
    forall i | 0 <= i < |ps| ensures Describes(concepts, cs, resolved, ps[i]) {
      assert sorted[i] in found;
      DescribesAnyRank(concepts, cs, resolved, sorted[i], i + 1);
    }
    SameNames(found, sorted, ps);
    forall i, j | 0 <= i < j < |ps| ensures Precedes(ps[i], ps[j]) {
      ProbeRankIgnored(sorted[i], i + 1);
      ProbeRankIgnored(sorted[j], j + 1);
      SortedByPrecedence(ps[i], ps[j]);
    }
  }

  lemma DescribesAnyRank(concepts: Concepts, cs: seq<Candidate>, resolved: set<string>, c: ProbeCandidate, n: nat)
    requires AllHypotheses(concepts, cs) && cs != [] && Describes(concepts, cs, resolved, c)
    ensures Describes(concepts, cs, resolved, c.(rank := n))
  {
    hide Joined;
    hide Against;
    hide Analyses;
  }

  // ----- laws

  lemma {:induction false} TopWithinTotal(xs: seq<Analysis>)
    requires forall k :: 0 <= k < |xs| ==> xs[k].effects != [] && Analyzed(xs[k])
    ensures TopComponents(xs) <= TotalComponents(xs)
  {
    hide Row;
    hide Triangle;
    if xs != [] {
      var a := xs[|xs| - 1];
      FirstRowCounted(a.effects, |a.effects|);
      TopWithinTotal(xs[..|xs| - 1]);
    }
  }

  /**
    For every listed probe the top candidate's components are part of the total, its two-sided
    alternatives are among the discriminated ones, and each alternative is paid for by components.
   */
  lemma FactorsAgree(concepts: Concepts, cs: seq<Candidate>, resolved: set<string>, c: ProbeCandidate)
    requires AllHypotheses(concepts, cs) && cs != [] && Describes(concepts, cs, resolved, c)
    ensures c.topTwoSided <= c.topDiscriminated && c.twoSided <= c.discriminated
    ensures |c.topDiscriminated| + |c.topTwoSided| <= c.topComponents <= c.components
  {
    hide Effects;
    hide Analyzed;
    hide Deciding;
    hide Tested;
    hide Joined;
    hide Against;
    TwoSidedWithin(c.analyses, c.discriminated, c.twoSided);
    AgainstWithin(cs, c.discriminated, c.twoSided, c.topDiscriminated, c.topTwoSided);
    AnalysesRanked(concepts, cs, c.probe, Deciding(concepts, cs, c.probe, c.unresolved), c.analyses);
    TopWithinTotal(c.analyses);
  }

  lemma TwoSidedWithin(xs: seq<Analysis>, discriminated: set<Pair>, twoSided: set<Pair>)
    requires Joined(xs, discriminated, twoSided)
    ensures twoSided <= discriminated
  {
    forall p | p in twoSided ensures p in discriminated {
      var k :| 0 <= k < |xs| && p in xs[k].observed && p in xs[k].absent;
      assert p in xs[k].observed + xs[k].absent;
    }
  }

  lemma AgainstWithin(cs: seq<Candidate>, pairs: set<Pair>, fewer: set<Pair>, alternatives: set<string>,
                      some: set<string>)
    requires cs != [] && fewer <= pairs && Against(cs, pairs, alternatives) && Against(cs, fewer, some)
    ensures some <= alternatives
  {
    forall a | a in some ensures a in alternatives {
      var j :| 0 < j < |cs| && cs[j].source == a;
    }
  }

  lemma AnalysesRanked(concepts: Concepts, cs: seq<Candidate>, probe: string, os: seq<string>, xs: seq<Analysis>)
    requires AllHypotheses(concepts, cs) && cs != [] && Analyses(concepts, cs, probe, os, xs)
    ensures forall k :: 0 <= k < |xs| ==> xs[k].effects != [] && Analyzed(xs[k])
  {
    hide Analyzed;
  }
}
