/** When a confirmation of scripts/d2_2_causal_confirmation.py is a deadlock. */
module DeadlockLaws {
  import opened Prelude
  import opened Keys
  import opened AccessOrders
  import opened SchemaText
  import opened DeadlockConfirmation

  /** a waits for b on exactly the resource that b takes first, and on nothing else. */
  ghost predicate WaitsForFirst(edges: seq<WaitEdge>, a: Participant, b: Participant)
  {
    && Waits(edges, a.pid, b.pid)
    && forall e :: e in edges && e.waiter == a.pid ==> e.blocker == b.pid && e.resource == b.order.0
  }

  /** The two participants are in a deadlock over two resources, and the victim is one of them. */
  ghost predicate Deadlock(c: Correlation, r: Confirmation, a: Participant, b: Participant)
  {
    && a.pid != b.pid && r.participants.Values == {a, b}
    && a.order == (b.order.1, b.order.0)
    && WaitsForFirst(c.edges, a, b) && WaitsForFirst(c.edges, b, a)
    && r.victim in {a, b}
  }

  /** The two facts a precondition names order the same resources oppositely. */
  predicate NamedFactsOppose(facts: map<string, Fact>, p: Precondition)
  {
    && p.left.fact in facts && p.right.fact in facts
    && facts[p.left.fact].subject == facts[p.right.fact].obj && facts[p.left.fact].obj == facts[p.right.fact].subject
  }

  lemma {:induction false} FindingsOppose(facts: seq<Fact>, ps: seq<Precondition>, p: Precondition)
    requires Findings(facts, ps) && p in ps
    ensures p.left.codePath != p.right.codePath
    ensures NamedApart(facts, FactId) ==> NamedFactsOppose(ById(facts, FactId), p)
  {
    assert Reports(facts, p);
    var l, r :| l in facts && r in facts && TextLess(l.id, r.id) && Opposing(l, r) && p == PreconditionOf(l, r);
    hide ById;
    hide NamedApart;
    if NamedApart(facts, FactId) {
      ByUniqueId(facts, FactId, l);
      ByUniqueId(facts, FactId, r);
    }
  }

  /** Two participants who wait for each other, with opposite orders, wait for each other's first resource. */
  lemma MutualWaitOnFirst(bindings: Bindings, p: Precondition, edges: seq<WaitEdge>)
    requires SameSymbols(bindings, p) && SidesBound(bindings, p) && p.left.codePath != p.right.codePath
    requires DistinctPids(bindings) && MutualWait(Table(bindings), edges)
    requires bindings[p.left.codePath].order == (bindings[p.right.codePath].order.1, bindings[p.right.codePath].order.0)
    ensures var a, b := bindings[p.left.codePath], bindings[p.right.codePath];
            && a.pid != b.pid && bindings.Values == {a, b}
            && WaitsForFirst(edges, a, b) && WaitsForFirst(edges, b, a)
  {
    var a, b, table := bindings[p.left.codePath], bindings[p.right.codePath], Table(bindings);
    assert bindings.Values == {a, b} by {
      assert forall s :: s in bindings <==> s in {p.left.codePath, p.right.codePath};
    }
    assert a.pid in table && b.pid in table;
    TwoOnly(table.Keys, a.pid, b.pid);
    OneWay(table, edges, a, b);
    OneWay(table, edges, b, a);
  }

  lemma OneWay(table: map<int, Participant>, edges: seq<WaitEdge>, a: Participant, b: Participant)
    requires MutualWait(table, edges) && table.Keys == {a.pid, b.pid} && a.pid != b.pid
    requires table[a.pid] == a && table[b.pid] == b && a.order.1 == b.order.0
    ensures WaitsForFirst(edges, a, b)
  {
    forall e | e in edges && e.waiter == a.pid ensures e.blocker == b.pid && e.resource == b.order.0 {
      assert EdgeMatches(table, e);
      assert e.blocker in table.Keys;
    }
  }

  lemma {:induction false} VictimBound(ps: seq<Participant>, event: DeadlockEvent, v: Participant)
    requires NamedApart(ps, Symbol) && VictimMatches(ps, event, v)
    ensures v in ById(ps, Symbol).Values
  {
    assert v in ps;
    ByUniqueId(ps, Symbol, v);
    hide ById;
    assert ById(ps, Symbol)[Symbol(v)] == v;
  }

  /** Confirming participants are in a deadlock exactly when the facts their precondition names are opposing. */
  lemma {:induction false} ConfirmedWhen(declared: Static, runtime: Runtime, projection: Projection,
                                         correlated: Identity, c: Correlation, r: Confirmation)
    requires Confirmed(declared, runtime, projection, correlated, c, r)
    requires Findings(declared.facts, projection.matches)
    ensures var p := r.precondition;
            && SidesBound(r.participants, p)
            && (Deadlock(c, r, r.participants[p.left.codePath], r.participants[p.right.codePath]) <==>
                NamedFactsOppose(ById(declared.facts, FactId), p))
  {
    hide Findings;
    hide NamedApart;
    hide Matches;
    hide VictimMatches;
    hide DistinctPids;
    hide MutualWait;
    hide SameSymbols;
    hide WaitsForFirst;
    hide Executed;
    hide ById;
    hide RuntimeValid;
    hide CorrelationFits;
    hide HasForm;
    var p := r.precondition;
    MatchedSymbols(ById(declared.facts, FactId), projection.matches, r.participants, p);
    FindingsOppose(declared.facts, projection.matches, p);
    VictimBound(c.participants, c.event, r.victim);
    hide AllExecuted;
    if NamedFactsOppose(ById(declared.facts, FactId), p) { MutualWaitOnFirst(r.participants, p, c.edges); }
  }

  ghost predicate SamePaths(p: Precondition, q: Precondition)
  {
    {p.left.codePath, p.right.codePath} == {q.left.codePath, q.right.codePath}
  }

  /** p is the only finding between its two code paths, so a correlation of them can match it. */
  ghost predicate OnlyBetween(ps: seq<Precondition>, p: Precondition)
  {
    p in ps && forall q :: q in ps && SamePaths(q, p) ==> q == p
  }

  /** Whatever executions and correlation are supplied, a confirmation from these facts and findings is a deadlock. */
  ghost predicate AlwaysDeadlocks(facts: seq<Fact>, ps: seq<Precondition>)
  {
    forall declared: Static, runtime, projection: Projection, correlated, c, r ::
      declared.facts == facts && projection.matches == ps &&
      Confirmed(declared, runtime, projection, correlated, c, r) ==>
        IsDeadlock(c, r)
  }

  ghost predicate IsDeadlock(c: Correlation, r: Confirmation)
  {
    && SidesBound(r.participants, r.precondition)
    && Deadlock(c, r, r.participants[r.precondition.left.codePath], r.participants[r.precondition.right.codePath])
  }

  /** The finding's paths, transactions and resources have the forms that a correlation has to use. */
  ghost predicate Expressible(facts: map<string, Fact>, p: Precondition)
  {
    SideExpressible(facts, p.left) && SideExpressible(facts, p.right)
  }

  predicate SideExpressible(facts: map<string, Fact>, side: Side)
  {
    && Tagged(CODE, side.codePath) && Tagged(TRANSACTION, side.transaction)
    && side.fact in facts && ResourceText(facts[side.fact].subject) && ResourceText(facts[side.fact].obj)
  }

  /** Every finding that can be matched names the opposing facts; this can be looked up before any confirmation. */
  ghost predicate NamesOpposing(facts: seq<Fact>, ps: seq<Precondition>)
  {
    forall p :: OnlyBetween(ps, p) && Expressible(ById(facts, FactId), p) ==> NamedFactsOppose(ById(facts, FactId), p)
  }

  /** What is confirmed is expressible: job paths, for example, are never confirmed. */
  lemma {:induction false} ConfirmedExpressible(declared: Static, runtime: Runtime, projection: Projection,
                                                correlated: Identity, c: Correlation, r: Confirmation)
    requires Confirmed(declared, runtime, projection, correlated, c, r)
    ensures Expressible(ById(declared.facts, FactId), r.precondition)
    ensures OnlyBetween(projection.matches, r.precondition)
  {
    hide RuntimeValid;
    hide AllExecuted;
    hide MutualWait;
    hide VictimMatches;
    hide Tagged;
    hide ResourceText;
    hide OnlyBetween;
    var facts, p := ById(declared.facts, FactId), r.precondition;
    MatchedSymbols(facts, projection.matches, r.participants, p);
    MatchedOnlyBetween(facts, projection.matches, r.participants, p);
    hide Matches;
    assert r.participants[p.left.codePath] in c.participants && r.participants[p.right.codePath] in c.participants;
    hide ById;
  }

  lemma MatchedOnlyBetween(facts: map<string, Fact>, ps: seq<Precondition>, bindings: Bindings, p: Precondition)
    requires Matches(facts, ps, bindings, p)
    ensures OnlyBetween(ps, p)
  {
    forall q | q in ps && SamePaths(q, p) ensures q == p {
      assert q in Candidates(ps, bindings);
    }
  }

  // ----- a correlation for any finding that can be matched

  lemma {:induction false} CandidatesOne(ps: seq<Precondition>, bindings: Bindings, p: Precondition)
    requires forall i, j :: 0 <= i < j < |ps| ==> ps[i] != ps[j]
    requires p in ps && SameSymbols(bindings, p) && forall q :: q in ps && SameSymbols(bindings, q) ==> q == p
    ensures Candidates(ps, bindings) == [p]
  {
    hide SameSymbols;
    var rest, last := ps[..|ps| - 1], ps[|ps| - 1];
    assert ps == rest + [last];
    if last == p {
      assert p !in rest;
      var none := Candidates(rest, bindings);
      assert none != [] ==> none[0] in none;
    } else {
      assert p in rest && !SameSymbols(bindings, last);
      CandidatesOne(rest, bindings, p);
    }
  }

  const FIRST := Id(EXECUTION, '1')
  const SECOND := Id(EXECUTION, '2')

  lemma TwoExecutions()
    ensures ExecutionText(FIRST) && ExecutionText(SECOND) && FIRST != SECOND
  {
    IdsDiffer(EXECUTION, '1', '2');
  }

  function Waiter(pid: int, e: Execution, side: Side, fact: Fact, aborted: bool): Participant
  {
    Participant(pid, e.id, e.trace, e.span, side.codePath, side.transaction, (fact.subject, fact.obj), aborted,
                if aborted then Some("40P01") else None)
  }

  function RunOf(p: Precondition): seq<Execution>
  {
    [Execution(FIRST, "t", "s1", p.left.codePath), Execution(SECOND, "t", "s2", p.right.codePath)]
  }

  function RuntimeOf(id: Identity, p: Precondition): Runtime { Runtime(id, RunOf(p), [], []) }

  function LeftOf(facts: map<string, Fact>, p: Precondition): Participant
    requires p.left.fact in facts
  {
    Waiter(1, RunOf(p)[0], p.left, facts[p.left.fact], true)
  }

  function RightOf(facts: map<string, Fact>, p: Precondition): Participant
    requires p.right.fact in facts
  {
    Waiter(2, RunOf(p)[1], p.right, facts[p.right.fact], false)
  }

  /** Two participants that run a finding's sides, wait for each other on their second resource, and deadlock. */
  function CorrelationOf(facts: map<string, Fact>, p: Precondition): Correlation
    requires p.left.fact in facts && p.right.fact in facts
  {
    var a, b := LeftOf(facts, p), RightOf(facts, p);
    Correlation([a, b], [WaitEdge(1, 2, FIRST, SECOND, a.order.1), WaitEdge(2, 1, SECOND, FIRST, b.order.1)],
                Cycle([1, 2], [FIRST, SECOND]), DeadlockEvent(true, "40P01", 1, FIRST))
  }

  function BindingsOf(facts: map<string, Fact>, p: Precondition): Bindings
    requires p.left.fact in facts && p.right.fact in facts
  {
    map[p.left.codePath := LeftOf(facts, p), p.right.codePath := RightOf(facts, p)]
  }

  lemma {:induction false} ByIdTwo<T>(xs: seq<T>, key: T -> string)
    requires |xs| == 2
    ensures ById(xs, key) == map[key(xs[0]) := xs[0], key(xs[1]) := xs[1]]
  {
    assert xs[..1] == [xs[0]] && xs[..1][..0] == [];
  }

  lemma CorrelationBinds(facts: map<string, Fact>, p: Precondition)
    requires p.left.fact in facts && p.right.fact in facts && p.left.codePath != p.right.codePath
    ensures var ps := CorrelationOf(facts, p).participants;
            ById(ps, Symbol) == BindingsOf(facts, p) && AllExecuted(ById(RunOf(p), ExecutionId), ps)
  {
    var ps, es := CorrelationOf(facts, p).participants, RunOf(p);
    TwoExecutions();
    hide Id;
    ByIdTwo(ps, Symbol);
    ByIdTwo(es, ExecutionId);
    hide ById;
    assert NamedApart(ps, Symbol);
    assert Executed(ById(es, ExecutionId), ps[0]) && Executed(ById(es, ExecutionId), ps[1]);
  }

  lemma CorrelationMatches(facts: map<string, Fact>, ps: seq<Precondition>, p: Precondition)
    requires p.left.fact in facts && p.right.fact in facts && p.left.codePath != p.right.codePath
    requires OnlyBetween(ps, p) && forall i, j :: 0 <= i < j < |ps| ==> ps[i] != ps[j]
    ensures Matches(facts, ps, BindingsOf(facts, p), p)
  {
    var b := BindingsOf(facts, p);
    assert b.Keys == {p.left.codePath, p.right.codePath};
    assert SideMatches(facts, b, p.left) && SideMatches(facts, b, p.right);
    forall q | q in ps && SameSymbols(b, q) ensures q == p {
      assert SamePaths(q, p);
    }
    CandidatesOne(ps, b, p);
  }

  lemma CorrelationWaits(facts: map<string, Fact>, p: Precondition)
    requires p.left.fact in facts && p.right.fact in facts && p.left.codePath != p.right.codePath
    ensures var b := BindingsOf(facts, p); DistinctPids(b) && MutualWait(Table(b), CorrelationOf(facts, p).edges)
  {
    hide MutualWait;
    var b, l, r := BindingsOf(facts, p), LeftOf(facts, p), RightOf(facts, p);
    assert b[p.left.codePath] == l && b[p.right.codePath] == r;
    assert Table(b) == map[1 := l, 2 := r];
    PairWaits(l, r);
  }

  lemma PairWaits(l: Participant, r: Participant)
    requires l.pid == 1 && r.pid == 2 && l.execution == FIRST && r.execution == SECOND
    ensures MutualWait(map[1 := l, 2 := r],
                       [WaitEdge(1, 2, FIRST, SECOND, l.order.1), WaitEdge(2, 1, SECOND, FIRST, r.order.1)])
  {
    var edges := [WaitEdge(1, 2, FIRST, SECOND, l.order.1), WaitEdge(2, 1, SECOND, FIRST, r.order.1)];
    assert edges[0] in edges && edges[1] in edges;
    assert Waits(edges, 1, 2) && Waits(edges, 2, 1);
  }

  lemma CorrelationAccepted(facts: map<string, Fact>, p: Precondition, id: Identity)
    requires Expressible(facts, p) && IdentityFits(id)
    ensures RuntimeValid(RuntimeOf(id, p)) && CorrelationFits(id, CorrelationOf(facts, p))
  {
    hide Tagged;
    hide ResourceText;
    TwoExecutions();
    hide ExecutionText;
    hide Id;
    var r, c := RuntimeOf(id, p), CorrelationOf(facts, p);
    assert ExecutionFits(r.executions[0]) && ExecutionFits(r.executions[1]);
    assert ParticipantFits(c.participants[0]) && ParticipantFits(c.participants[1]);
    assert EdgeFits(c.edges[0]) && EdgeFits(c.edges[1]);
  }

  /** The confirmation of a finding by the two participants that run its sides. */
  ghost function ConfirmationOf(facts: map<string, Fact>, p: Precondition): Confirmation
    requires p.left.fact in facts && p.right.fact in facts
  {
    Confirmation(p, BindingsOf(facts, p), LeftOf(facts, p))
  }

  /** These documents confirm the finding p of these facts. */
  ghost predicate ConfirmedBy(facts: seq<Fact>, ps: seq<Precondition>, p: Precondition, id: Identity)
    requires Expressible(ById(facts, FactId), p)
  {
    var byId := ById(facts, FactId);
    Confirmed(Static(id.system, id.revision, facts), RuntimeOf(id, p), Projection(id, true, ps), id,
              CorrelationOf(byId, p), ConfirmationOf(byId, p))
  }

  /** Any expressible finding that can be matched is confirmed by some executions and correlation. */
  lemma {:induction false} Confirmable(facts: seq<Fact>, ps: seq<Precondition>, p: Precondition, id: Identity)
    requires Findings(facts, ps) && OnlyBetween(ps, p) && Expressible(ById(facts, FactId), p) && IdentityFits(id)
    ensures ConfirmedBy(facts, ps, p, id)
  {
    hide ById;
    hide AllExecuted;
    hide Matches;
    hide MutualWait;
    hide DistinctPids;
    hide OnlyBetween;
    hide Table;
    hide RuntimeValid;
    hide CorrelationFits;
    hide HasForm;
    hide Id;
    FindingKnown(facts, ps, p);
    hide Findings;
    var byId := ById(facts, FactId);
    CorrelationAccepted(byId, p, id);
    CorrelationBinds(byId, p);
    CorrelationMatches(byId, ps, p);
    CorrelationWaits(byId, p);
    hide Expressible;
    var c := CorrelationOf(byId, p);
    assert c.participants[0] == LeftOf(byId, p);
    assert FirstOn(c.participants, 1, LeftOf(byId, p));
  }

  lemma {:induction false} FindingKnown(facts: seq<Fact>, ps: seq<Precondition>, p: Precondition)
    requires Findings(facts, ps) && OnlyBetween(ps, p)
    ensures var byId := ById(facts, FactId); p.left.fact in byId && p.right.fact in byId
    ensures p in ps && p.left.codePath != p.right.codePath
    ensures forall i, j :: 0 <= i < j < |ps| ==> ps[i] != ps[j]
  {
    assert Reports(facts, p);
    var l, r :| l in facts && r in facts && TextLess(l.id, r.id) && Opposing(l, r) && p == PreconditionOf(l, r);
    assert FactId(l) in ById(facts, FactId) && FactId(r) in ById(facts, FactId);
    forall i, j | 0 <= i < j < |ps| ensures ps[i] != ps[j] {
      assert ps[i].Key() != ps[j].Key();
    }
  }

  /**
    For the findings of any facts: every confirmation, over all executions and correlations, is a
    mutual wait on each other's first resource with the victim one of the two, if and only if every
    expressible finding that is the only one between its code paths names the opposing facts.
   */
  lemma {:induction false} DeadlocksIff(facts: seq<Fact>, ps: seq<Precondition>)
    requires Findings(facts, ps)
    ensures AlwaysDeadlocks(facts, ps) <==> NamesOpposing(facts, ps)
  {
    hide Findings;
    hide OnlyBetween;
    hide NamedFactsOppose;
    hide Expressible;
    hide ById;
    if NamesOpposing(facts, ps) {
      forall declared: Static, runtime, projection: Projection, correlated, c, r |
        declared.facts == facts && projection.matches == ps &&
        Confirmed(declared, runtime, projection, correlated, c, r)
        ensures IsDeadlock(c, r)
      {
        ConfirmedNames(declared, runtime, projection, correlated, c, r);
      }
    }
    hide Confirmed;
    if AlwaysDeadlocks(facts, ps) {
      forall p | OnlyBetween(ps, p) && Expressible(ById(facts, FactId), p)
        ensures NamedFactsOppose(ById(facts, FactId), p)
      {
        DeadlockNames(facts, ps, p);
      }
    }
  }

  lemma {:induction false} ConfirmedNames(declared: Static, runtime: Runtime, projection: Projection,
                                          correlated: Identity, c: Correlation, r: Confirmation)
    requires Confirmed(declared, runtime, projection, correlated, c, r)
    requires Findings(declared.facts, projection.matches) && NamesOpposing(declared.facts, projection.matches)
    ensures IsDeadlock(c, r)
  {
    hide Findings;
    hide OnlyBetween;
    hide NamedFactsOppose;
    hide Expressible;
    hide ById;
    hide Deadlock;
    ConfirmedExpressible(declared, runtime, projection, correlated, c, r);
    ConfirmedWhen(declared, runtime, projection, correlated, c, r);
    hide Confirmed;
  }

  /** A finding of facts that always lead to deadlocks names opposing facts: its own confirmation is one. */
  lemma {:induction false} DeadlockNames(facts: seq<Fact>, ps: seq<Precondition>, p: Precondition)
    requires Findings(facts, ps) && AlwaysDeadlocks(facts, ps)
    requires OnlyBetween(ps, p) && Expressible(ById(facts, FactId), p)
    ensures NamedFactsOppose(ById(facts, FactId), p)
  {
    hide Findings;
    hide OnlyBetween;
    hide NamedFactsOppose;
    hide ById;
    hide Deadlock;
    hide Confirmed;
    var id := Identity("system", "revision", "incident");
    Confirmable(facts, ps, p, id);
    var byId := ById(facts, FactId);
    var r := ConfirmationOf(byId, p);
    assert IsDeadlock(CorrelationOf(byId, p), r);
    ConfirmedWhen(Static(id.system, id.revision, facts), RuntimeOf(id, p), Projection(id, true, ps), id,
                  CorrelationOf(byId, p), r);
  }

  /** Unique fact ids, which the static document's own validation demands, are enough. */
  lemma ValidFactsDeadlock(entities: seq<Entity>, facts: seq<Fact>, ps: seq<Precondition>)
    requires Sound(entities, facts) && Findings(facts, ps)
    ensures AlwaysDeadlocks(facts, ps)
  {
    hide Findings;
    hide NamedFactsOppose;
    hide ById;
    hide AlwaysDeadlocks;
    hide Expressible;
    forall p | OnlyBetween(ps, p) ensures NamedFactsOppose(ById(facts, FactId), p) {
      FindingsOppose(facts, ps, p);
    }
    DeadlocksIff(facts, ps);
  }

  // ----- repeated fact ids

  /** Two code paths with their transactions, two resources, and two fact ids. */
  datatype Setting = Setting(a: string, b: string, s: string, t: string, x: string, y: string, i: string, j: string) {
    ghost predicate Fits()
    {
      && Tagged(CODE, a) && Tagged(CODE, b) && a != b && Tagged(TRANSACTION, s) && Tagged(TRANSACTION, t)
      && ResourceText(x) && ResourceText(y) && x != y && TextLess(i, j)
    }

    /** Path a takes x before y, and path b the other way round; a fact with a's id says that a takes y first. */
    function Facts(): seq<Fact>
    {
      [Fact(i, AccessesBefore(a, s), x, y, false, ""), Fact(j, AccessesBefore(b, t), y, x, false, ""),
       Fact(i, AccessesBefore(a, s), y, x, false, "")]
    }

    function Finding(): Precondition { Precondition((x, y), Side(i, a, s), Side(j, b, t)) }
  }

  lemma LookedUp(g: Setting)
    requires g.i != g.j
    ensures ById(g.Facts(), FactId) == map[g.i := g.Facts()[2], g.j := g.Facts()[1]]
  {
    var fs := g.Facts();
    assert fs[..2] == [fs[0], fs[1]];
    assert fs[..2][..1] == [fs[0]];
    assert fs[..2][..1][..0] == [];
  }

  /** A fact that opposes another is the first or the second, and the other the second or the first. */
  lemma OnlyCrossing(g: Setting, l: Fact, r: Fact)
    requires g.Fits() && g.i != g.j && l in g.Facts() && r in g.Facts() && l.id != r.id && Opposing(l, r)
    ensures (l, r) == (g.Facts()[0], g.Facts()[1]) || (l, r) == (g.Facts()[1], g.Facts()[0])
  {
  }

  lemma OneKey(g: Setting, key: OrderKey)
    requires g.Fits() && g.i != g.j && Opposed(g.Facts(), key)
    ensures key == g.Finding().Key()
  {
    var fs := g.Facts();
    var l, r :| l in fs && r in fs && l.id != r.id && Opposing(l, r) && PreconditionOf(l, r).Key() == key;
    OnlyCrossing(g, l, r);
    assert PreconditionOf(fs[0], fs[1]) == g.Finding();
    KeySymmetric(l, r);
  }

  lemma Crossed(g: Setting)
    requires g.Fits()
    ensures g.i != g.j && Reports(g.Facts(), g.Finding()) && Opposed(g.Facts(), g.Finding().Key())
  {
    TextIrreflexive(g.i);
    hide TextLess;
    hide Precondition.Key;
    var fs := g.Facts();
    assert fs[0] in fs && fs[1] in fs && Opposing(fs[0], fs[1]) && PreconditionOf(fs[0], fs[1]) == g.Finding();
  }

  /** The two facts with different ids oppose each other, and no other pair does. */
  lemma CrossingFinding(g: Setting)
    requires g.Fits()
    ensures Findings(g.Facts(), [g.Finding()])
  {
    hide Precondition.Key;
    hide Opposed;
    hide Reports;
    Crossed(g);
    var ps := [g.Finding()];
    assert ps[0] in ps;
    forall key ensures Opposed(g.Facts(), key) <==> key in KeySet(ps) {
      if Opposed(g.Facts(), key) { OneKey(g, key); }
    }
  }

  lemma Misnamed(g: Setting)
    requires g.Fits()
    ensures var byId := ById(g.Facts(), FactId);
            !NamedFactsOppose(byId, g.Finding()) && Expressible(byId, g.Finding())
  {
    TextIrreflexive(g.i);
    LookedUp(g);
    hide ById;
  }

  /**
    With a repeated id the one finding names another fact than the one it was found in. It is
    confirmed although both participants take the resources in the same order, which is no deadlock.
   */
  lemma RepeatedIdMisnames(g: Setting, id: Identity)
    requires g.Fits() && IdentityFits(id)
    ensures !NamedApart(g.Facts(), FactId) && Findings(g.Facts(), [g.Finding()])
    ensures var byId := ById(g.Facts(), FactId);
            && Expressible(byId, g.Finding()) && ConfirmedBy(g.Facts(), [g.Finding()], g.Finding(), id)
            && LeftOf(byId, g.Finding()).order == RightOf(byId, g.Finding()).order
            && !IsDeadlock(CorrelationOf(byId, g.Finding()), ConfirmationOf(byId, g.Finding()))
    ensures !AlwaysDeadlocks(g.Facts(), [g.Finding()])
  {
    hide *;
    RepeatsId(g);
    CrossingFinding(g);
    OnlyFinding(g);
    Misnamed(g);
    SameOrder(g);
    MisnamedConfirmed(g.Facts(), [g.Finding()], g.Finding(), id);
  }

  lemma RepeatsId(g: Setting)
    ensures !NamedApart(g.Facts(), FactId)
  {
    assert FactId(g.Facts()[0]) == FactId(g.Facts()[2]);
  }

  lemma OnlyFinding(g: Setting)
    ensures OnlyBetween([g.Finding()], g.Finding())
  {
    assert g.Finding() in [g.Finding()];
  }

  lemma SameOrder(g: Setting)
    requires g.Fits()
    ensures var byId := ById(g.Facts(), FactId);
            g.i in byId && g.j in byId && LeftOf(byId, g.Finding()).order == RightOf(byId, g.Finding()).order
  {
    TextIrreflexive(g.i);
    LookedUp(g);
    hide ById;
    hide Id;
  }

  lemma {:induction false} MisnamedConfirmed(facts: seq<Fact>, ps: seq<Precondition>, p: Precondition, id: Identity)
    requires Findings(facts, ps) && OnlyBetween(ps, p) && Expressible(ById(facts, FactId), p) && IdentityFits(id)
    requires !NamedFactsOppose(ById(facts, FactId), p)
    ensures ConfirmedBy(facts, ps, p, id)
    ensures !IsDeadlock(CorrelationOf(ById(facts, FactId), p), ConfirmationOf(ById(facts, FactId), p))
    ensures !AlwaysDeadlocks(facts, ps)
  {
    hide Findings;
    hide OnlyBetween;
    hide NamedFactsOppose;
    hide ById;
    hide Deadlock;
    hide Confirmed;
    Confirmable(facts, ps, p, id);
    var byId := ById(facts, FactId);
    ConfirmedWhen(Static(id.system, id.revision, facts), RuntimeOf(id, p), Projection(id, true, ps), id,
                  CorrelationOf(byId, p), ConfirmationOf(byId, p));
  }

  // ----- such documents exist

  const CROSSING := Setting(CODE + ['a'], CODE + ['b'], TRANSACTION + ['a'], TRANSACTION + ['b'],
                            RESOURCE + ['x'], RESOURCE + ['y'], "fact.order." + ['1'], "fact.order." + ['2'])

  lemma TaggedLetter(tag: string, c: char)
    requires Lower(c)
    ensures Tagged(tag, tag + [c])
  {
    assert Chomped(tag + [c]) == tag + [c];
    assert (tag + [c])[|tag|..] == [c];
  }

  lemma ResourceLetter(c: char)
    requires Lower(c)
    ensures ResourceText(RESOURCE + [c])
  {
    var prefix := RESOURCE;
    assert Chomped(prefix + [c]) == prefix + [c];
    assert (prefix + [c])[|prefix|..] == [c];
  }

  lemma LettersDiffer(prefix: string, c: char, d: char)
    requires c != d
    ensures prefix + [c] != prefix + [d]
  {
    assert (prefix + [c])[|prefix|] != (prefix + [d])[|prefix|];
  }

  lemma {:induction false} PrefixLess(prefix: string, c: char, d: char)
    requires c < d
    ensures TextLess(prefix + [c], prefix + [d])
  {
    if prefix == [] {
      assert prefix + [c] == [c] && prefix + [d] == [d];
    } else {
      assert (prefix + [c])[1..] == prefix[1..] + [c] && (prefix + [d])[1..] == prefix[1..] + [d];
      PrefixLess(prefix[1..], c, d);
    }
  }

  lemma CrossingFits()
    ensures CROSSING.Fits()
  {
    TaggedLetter(CODE, 'a');
    TaggedLetter(CODE, 'b');
    TaggedLetter(TRANSACTION, 'a');
    TaggedLetter(TRANSACTION, 'b');
    ResourceLetter('x');
    ResourceLetter('y');
    LettersDiffer(CODE, 'a', 'b');
    LettersDiffer(RESOURCE, 'x', 'y');
    PrefixLess("fact.order.", '1', '2');
    hide TextLess;
    hide Tagged;
    hide ResourceText;
  }
}
