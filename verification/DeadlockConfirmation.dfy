/** scripts/d2_2_causal_confirmation.py: tying static access orders to an observed mutual wait. */
module DeadlockConfirmation {
  import opened Prelude
  import opened Keys
  import opened AccessOrders
  import opened SchemaText

  datatype Execution = Execution(id: string, trace: string, span: string, codeSymbol: string)

  /** `order` are the two resources in the order taken. */
  datatype Participant = Participant(pid: int, execution: string, trace: string, span: string, codeSymbol: string,
                                     transaction: string, order: (string, string), aborted: bool,
                                     sqlstate: Option<string>)

  datatype WaitEdge = WaitEdge(waiter: int, blocker: int, waiterExecution: string, blockerExecution: string,
                               resource: string)

  datatype DeadlockEvent = DeadlockEvent(observed: bool, sqlstate: string, victim: int, victimExecution: string)

  /** The cycle as the correlation states it; nothing else is compared with it. */
  datatype Cycle = Cycle(pids: seq<int>, executions: seq<string>)

  datatype Correlation = Correlation(participants: seq<Participant>, edges: seq<WaitEdge>, cycle: Cycle,
                                     event: DeadlockEvent)

  datatype Overlap = Overlap(left: string, right: string, leftSymbol: string, rightSymbol: string)

  datatype Interaction = Interaction(id: string, execution: string, codeSymbol: string, trace: string, span: string)

  datatype Identity = Identity(system: string, revision: string, incident: string)

  datatype Static = Static(system: string, revision: string, facts: seq<Fact>)

  datatype Runtime = Runtime(identity: Identity, executions: seq<Execution>, overlaps: seq<Overlap>,
                             interactions: seq<Interaction>)

  /** The participants by code symbol. */
  type Bindings = map<string, Participant>

  function ExecutionId(e: Execution): string { e.id }

  function Symbol(p: Participant): string { p.codeSymbol }

  function InteractionId(x: Interaction): string { x.id }

  // ----- validate_runtime_document

  predicate IdentityFits(id: Identity)
  {
    id.system != "" && id.revision != "" && id.incident != ""
  }

  predicate ExecutionFits(e: Execution)
  {
    ExecutionText(e.id) && Tagged(CODE, e.codeSymbol) && e.trace != "" && e.span != ""
  }

  /** The schema of the runtime document. */
  predicate RuntimeFits(r: Runtime)
  {
    && IdentityFits(r.identity) && r.executions != []
    && (forall e :: e in r.executions ==> ExecutionFits(e))
    && (forall o :: o in r.overlaps ==>
          ExecutionText(o.left) && ExecutionText(o.right) && Tagged(CODE, o.leftSymbol) && Tagged(CODE, o.rightSymbol))
    && (forall x :: x in r.interactions ==>
          InteractionText(x.id) && ExecutionFits(Execution(x.execution, x.trace, x.span, x.codeSymbol)))
  }

  predicate OverlapKnown(executions: map<string, Execution>, o: Overlap)
  {
    && o.left in executions && o.right in executions
    && executions[o.left].codeSymbol == o.leftSymbol && executions[o.right].codeSymbol == o.rightSymbol
  }

  predicate InteractionKnown(executions: map<string, Execution>, x: Interaction)
  {
    && x.execution in executions
    && (var e := executions[x.execution]; x.trace == e.trace && x.span == e.span && x.codeSymbol == e.codeSymbol)
  }

  /** Some listed execution has this id and code symbol. */
  ghost predicate Runs(es: seq<Execution>, id: string, symbol: string)
  {
    exists e :: e in es && e.id == id && e.codeSymbol == symbol
  }

  /**
    Names have the forms of the schema, execution and interaction ids are unique, an overlap
    names two listed executions with their symbols, and an interaction repeats a listed execution.
   */
  ghost predicate RuntimeValid(r: Runtime)
  {
    && r.identity.system != "" && r.identity.revision != "" && r.identity.incident != "" && |r.executions| > 0
    && NamedApart(r.executions, ExecutionId) && NamedApart(r.interactions, InteractionId)
    && (forall e :: e in r.executions ==>
          e.trace != "" && e.span != "" && ExecutionText(e.id) && Tagged(CODE, e.codeSymbol))
    && (forall o :: o in r.overlaps ==>
          Runs(r.executions, o.left, o.leftSymbol) && Runs(r.executions, o.right, o.rightSymbol))
    && (forall x :: x in r.interactions ==>
          InteractionText(x.id) && Execution(x.execution, x.trace, x.span, x.codeSymbol) in r.executions)
  }

  lemma {:induction false} KnownMeans(es: seq<Execution>, o: Overlap, x: Interaction)
    requires NamedApart(es, ExecutionId)
    ensures OverlapKnown(ById(es, ExecutionId), o) <==>
            Runs(es, o.left, o.leftSymbol) && Runs(es, o.right, o.rightSymbol)
    ensures InteractionKnown(ById(es, ExecutionId), x) <==> Execution(x.execution, x.trace, x.span, x.codeSymbol) in es
  {
    hide NamedApart;
    forall e | e in es ensures ExecutionId(e) in ById(es, ExecutionId) && ById(es, ExecutionId)[ExecutionId(e)] == e {
      ByUniqueId(es, ExecutionId, e);
    }
    var byId := ById(es, ExecutionId);
    assert forall id :: id in byId ==> byId[id] in es && ExecutionId(byId[id]) == id;
    hide ById;
  }

  /** What the schema asks beyond the executions themselves follows from their being listed. */
  lemma RuntimeMeans(r: Runtime)
    requires NamedApart(r.executions, ExecutionId) && NamedApart(r.interactions, InteractionId)
    ensures RuntimeValid(r) <==>
            && RuntimeFits(r)
            && (forall o :: o in r.overlaps ==> OverlapKnown(ById(r.executions, ExecutionId), o))
            && (forall x :: x in r.interactions ==> InteractionKnown(ById(r.executions, ExecutionId), x))
  {
    hide NamedApart;
    hide ById;
    hide Tagged;
    hide ExecutionText;
    hide InteractionText;
    hide OverlapKnown;
    hide InteractionKnown;
    forall o | o in r.overlaps
      ensures OverlapKnown(ById(r.executions, ExecutionId), o) <==>
              Runs(r.executions, o.left, o.leftSymbol) && Runs(r.executions, o.right, o.rightSymbol) {
      KnownMeans(r.executions, o, Interaction("", "", "", "", ""));
    }
    forall x | x in r.interactions
      ensures InteractionKnown(ById(r.executions, ExecutionId), x) <==>
              Execution(x.execution, x.trace, x.span, x.codeSymbol) in r.executions {
      KnownMeans(r.executions, Overlap("", "", "", ""), x);
    }
  }

  lemma ValidWhen(r: Runtime)
    ensures RuntimeValid(r) <==>
            && RuntimeFits(r) && NamedApart(r.executions, ExecutionId) && NamedApart(r.interactions, InteractionId)
            && (forall o :: o in r.overlaps ==> OverlapKnown(ById(r.executions, ExecutionId), o))
            && (forall x :: x in r.interactions ==> InteractionKnown(ById(r.executions, ExecutionId), x))
  {
    if NamedApart(r.executions, ExecutionId) && NamedApart(r.interactions, InteractionId) { RuntimeMeans(r); }
    hide RuntimeFits;
    hide NamedApart;
    hide ById;
    hide OverlapKnown;
    hide InteractionKnown;
  }

  /** `validate_runtime_document`. */
  method ValidateRuntime(r: Runtime) returns (ok: bool)
    ensures ok <==> RuntimeValid(r)
  {
    hide RuntimeFits;
    hide RuntimeValid;
    hide ById;
    hide Ids;
    hide NamedApart;
    hide OverlapKnown;
    hide InteractionKnown;
    ValidWhen(r);
    if !RuntimeFits(r) { return false; }
    var executions := ById(r.executions, ExecutionId);
    BoundIds(r.executions, ExecutionId);
    UniqueByCount(r.executions, ExecutionId);
    UniqueByCount(r.interactions, InteractionId);
    if |executions.Keys| != |r.executions| { return false; }
    for i := 0 to |r.overlaps|
      invariant forall k :: 0 <= k < i ==> OverlapKnown(executions, r.overlaps[k])
    {
      if !OverlapKnown(executions, r.overlaps[i]) {
        assert r.overlaps[i] in r.overlaps;
        return false;
      }
    }
    if |Ids(r.interactions, InteractionId)| != |r.interactions| { return false; }
    for i := 0 to |r.interactions|
      invariant forall k :: 0 <= k < i ==> InteractionKnown(executions, r.interactions[k])
    {
      if !InteractionKnown(executions, r.interactions[i]) {
        assert r.interactions[i] in r.interactions;
        return false;
      }
    }
    return true;
  }

  // ----- validate_correlation

  predicate ParticipantFits(p: Participant)
  {
    && p.pid >= 1 && ExecutionText(p.execution) && p.trace != "" && p.span != ""
    && Tagged(CODE, p.codeSymbol) && Tagged(TRANSACTION, p.transaction)
    && ResourceText(p.order.0) && ResourceText(p.order.1)
  }

  predicate EdgeFits(e: WaitEdge)
  {
    && e.waiter >= 1 && e.blocker >= 1 && ExecutionText(e.waiterExecution) && ExecutionText(e.blockerExecution)
    && ResourceText(e.resource)
  }

  predicate CycleFits(c: Cycle)
  {
    && |c.pids| == 2 && c.pids[0] != c.pids[1] && (forall pid :: pid in c.pids ==> pid >= 1)
    && |c.executions| == 2 && c.executions[0] != c.executions[1] && forall x :: x in c.executions ==> ExecutionText(x)
  }

  predicate EventFits(e: DeadlockEvent)
  {
    e.observed && e.sqlstate == "40P01" && e.victim >= 1 && ExecutionText(e.victimExecution)
  }

  /** The schema of the correlation: two participants, and names of the forms that the live probe writes. */
  ghost predicate HasForm(id: Identity, c: Correlation)
  {
    var (cycle, event) := (c.cycle, c.event);
    && "" !in {id.system, id.revision, id.incident}
    && |c.participants| == |cycle.pids| == |cycle.executions| == 2 && |c.edges| >= 2
    && (forall i :: 0 <= i < 2 ==>
          var p := c.participants[i];
          && p.pid > 0 && "" !in {p.trace, p.span} && Tagged(TRANSACTION, p.transaction) && Tagged(CODE, p.codeSymbol)
          && ExecutionText(p.execution) && ResourceText(p.order.0) && ResourceText(p.order.1))
    && (forall i :: 0 <= i < |c.edges| ==>
          var e := c.edges[i];
          && e.waiter > 0 && e.blocker > 0 && ResourceText(e.resource)
          && ExecutionText(e.blockerExecution) && ExecutionText(e.waiterExecution))
    && cycle.pids[0] != cycle.pids[1] && cycle.pids[0] > 0 && cycle.pids[1] > 0
    && cycle.executions[0] != cycle.executions[1]
    && ExecutionText(cycle.executions[0]) && ExecutionText(cycle.executions[1])
    && event == DeadlockEvent(true, "40P01", event.victim, event.victimExecution)
    && event.victim > 0 && ExecutionText(event.victimExecution)
  }

  predicate CorrelationFits(id: Identity, c: Correlation)
    ensures CorrelationFits(id, c) <==> HasForm(id, c)
  {
    FormMeans(id, c);
    && IdentityFits(id)
    && |c.participants| == 2 && (forall p :: p in c.participants ==> ParticipantFits(p))
    && |c.edges| >= 2 && (forall e :: e in c.edges ==> EdgeFits(e))
    && CycleFits(c.cycle) && EventFits(c.event)
  }

  lemma FormMeans(id: Identity, c: Correlation)
    ensures HasForm(id, c) <==>
            && IdentityFits(id)
            && |c.participants| == 2 && (forall p :: p in c.participants ==> ParticipantFits(p))
            && |c.edges| >= 2 && (forall e :: e in c.edges ==> EdgeFits(e))
            && CycleFits(c.cycle) && EventFits(c.event)
  {
    hide ResourceText;
    hide ExecutionText;
    hide Tagged;
    assert forall i :: 0 <= i < |c.participants| ==> c.participants[i] in c.participants;
    assert forall i :: 0 <= i < |c.edges| ==> c.edges[i] in c.edges;
    assert forall i :: 0 <= i < |c.cycle.pids| ==> c.cycle.pids[i] in c.cycle.pids;
    assert forall i :: 0 <= i < |c.cycle.executions| ==> c.cycle.executions[i] in c.cycle.executions;
    CycleMeans(c.cycle);
    hide CycleFits;
    assert (forall p :: p in c.participants ==> ParticipantFits(p)) <==>
           forall i :: 0 <= i < |c.participants| ==> ParticipantFits(c.participants[i]);
    assert (forall e :: e in c.edges ==> EdgeFits(e)) <==> forall i :: 0 <= i < |c.edges| ==> EdgeFits(c.edges[i]);
  }

  lemma CycleMeans(c: Cycle)
    ensures CycleFits(c) <==>
            && |c.pids| == |c.executions| == 2
            && c.pids[0] != c.pids[1] && c.pids[0] > 0 && c.pids[1] > 0
            && c.executions[0] != c.executions[1] && ExecutionText(c.executions[0]) && ExecutionText(c.executions[1])
  {
    hide ExecutionText;
    if |c.pids| == |c.executions| == 2 {
      assert c.pids[0] in c.pids && c.pids[1] in c.pids;
      assert c.executions[0] in c.executions && c.executions[1] in c.executions;
    }
  }

  // ----- runtime_bindings

  /** The participant is exactly the execution it names. */
  predicate Executed(executions: map<string, Execution>, p: Participant)
    ensures Executed(executions, p) <==>
            && p.execution in executions
            && executions[p.execution] == Execution(executions[p.execution].id, p.trace, p.span, p.codeSymbol)
  {
    && p.execution in executions
    && (var e := executions[p.execution]; p.trace == e.trace && p.span == e.span && p.codeSymbol == e.codeSymbol)
  }

  ghost predicate AllExecuted(executions: map<string, Execution>, ps: seq<Participant>)
  {
    (forall p :: p in ps ==> Executed(executions, p)) && NamedApart(ps, Symbol)
  }

  /** `runtime_bindings`. */
  method RuntimeBindings(runtime: seq<Execution>, ps: seq<Participant>) returns (r: Result<Bindings>)
    ensures r.Ok? <==> AllExecuted(ById(runtime, ExecutionId), ps)
    ensures r.Ok? ==> r.value == ById(ps, Symbol)
  {
    hide AllExecuted;
    hide Executed;
    hide ById;
    var executions := ById(runtime, ExecutionId);
    var bindings: Bindings := map[];
    assert ps[..0] == [];
    NoneBound(executions);
    for i := 0 to |ps|
      invariant bindings == ById(ps[..i], Symbol) && AllExecuted(executions, ps[..i])
    {
      BindStep(executions, ps, i);
      if !Executed(executions, ps[i]) || ps[i].codeSymbol in bindings { return Raised; }
      bindings := bindings[ps[i].codeSymbol := ps[i]];
    }
    assert ps[..|ps|] == ps;
    return Ok(bindings);
  }

  lemma NoneBound(executions: map<string, Execution>)
    ensures ById([], Symbol) == map[] && AllExecuted(executions, [])
  {
  }

  lemma BindStep(executions: map<string, Execution>, ps: seq<Participant>, i: nat)
    requires i < |ps|
    ensures var b := ById(ps[..i], Symbol);
            && ById(ps[..i + 1], Symbol) == b[ps[i].codeSymbol := ps[i]]
            && (AllExecuted(executions, ps[..i + 1]) <==>
                  AllExecuted(executions, ps[..i]) && Executed(executions, ps[i]) && ps[i].codeSymbol !in b)
            && (AllExecuted(executions, ps) ==> AllExecuted(executions, ps[..i + 1]))
  {
    hide Executed;
    hide Ids;
    hide NamedApart;
    hide ById;
    TableStep(ps, i);
    UniqueStep(ps, i);
    BoundIds(ps[..i], Symbol);
    ExecutedStep(executions, ps, i);
  }

  lemma TableStep(ps: seq<Participant>, i: nat)
    requires i < |ps|
    ensures ById(ps[..i + 1], Symbol) == ById(ps[..i], Symbol)[ps[i].codeSymbol := ps[i]]
  {
    assert ps[..i + 1][..i] == ps[..i];
  }

  lemma UniqueStep(ps: seq<Participant>, i: nat)
    requires i < |ps|
    ensures NamedApart(ps[..i + 1], Symbol) <==>
              NamedApart(ps[..i], Symbol) && ps[i].codeSymbol !in Ids(ps[..i], Symbol)
    ensures NamedApart(ps, Symbol) ==> NamedApart(ps[..i + 1], Symbol)
  {
    hide Ids;
    assert ps[..i + 1][..i] == ps[..i];
    UniquePrefix(ps[..i + 1], Symbol);
  }

  lemma ExecutedStep(executions: map<string, Execution>, ps: seq<Participant>, i: nat)
    requires i < |ps|
    ensures (forall p :: p in ps[..i + 1] ==> Executed(executions, p)) <==>
            (forall p :: p in ps[..i] ==> Executed(executions, p)) && Executed(executions, ps[i])
    ensures (forall p :: p in ps ==> Executed(executions, p)) ==>
              forall p :: p in ps[..i + 1] ==> Executed(executions, p)
  {
    hide Executed;
    assert ps[..i + 1] == ps[..i] + [ps[i]];
    assert forall p :: p in ps[..i + 1] <==> p in ps[..i] || p == ps[i];
  }

  // ----- matching_precondition

  predicate SameSymbols(bindings: Bindings, p: Precondition)
  {
    {p.left.codePath, p.right.codePath} == bindings.Keys
  }

  predicate SidesBound(bindings: Bindings, p: Precondition)
  {
    p.left.codePath in bindings && p.right.codePath in bindings
  }

  lemma SymbolsBound(bindings: Bindings, p: Precondition)
    requires SameSymbols(bindings, p)
    ensures SidesBound(bindings, p)
  {
    assert p.left.codePath in bindings.Keys && p.right.codePath in bindings.Keys;
  }

  /** The participant on this side ran the side's transaction and took its resources in the fact's order. */
  predicate SideMatches(facts: map<string, Fact>, bindings: Bindings, side: Side)
    requires side.codePath in bindings
  {
    && bindings[side.codePath].transaction == side.transaction
    && side.fact in facts
    && bindings[side.codePath].order == (facts[side.fact].subject, facts[side.fact].obj)
  }

  function Candidates(matches: seq<Precondition>, bindings: Bindings): (r: seq<Precondition>)
    ensures forall p :: p in r <==> p in matches && SameSymbols(bindings, p)
  {
    if matches == [] then []
    else
      var rest := Candidates(matches[..|matches| - 1], bindings);
      var last := matches[|matches| - 1];
      assert forall p :: p in matches <==> p in matches[..|matches| - 1] || p == last;
      if SameSymbols(bindings, last) then rest + [last] else rest
  }

  /** p is the one precondition between the correlated code paths, and both its sides match. */
  ghost predicate Matches(facts: map<string, Fact>, matches: seq<Precondition>, bindings: Bindings, p: Precondition)
  {
    && Candidates(matches, bindings) == [p]
    && p in matches && SameSymbols(bindings, p)
    && SideMatches(facts, bindings, p.left) && SideMatches(facts, bindings, p.right)
  }

  /** `matching_precondition`. */
  method MatchingPrecondition(facts: seq<Fact>, matches: seq<Precondition>, bindings: Bindings)
    returns (r: Result<Precondition>)
    ensures r.Ok? ==> Matches(ById(facts, FactId), matches, bindings, r.value)
    ensures r.Raised? ==> forall p :: !Matches(ById(facts, FactId), matches, bindings, p)
  {
    hide SideMatches;
    hide SameSymbols;
    var byId := ById(facts, FactId);
    var candidates: seq<Precondition> := [];
    for i := 0 to |matches|
      invariant candidates == Candidates(matches[..i], bindings)
    {
      assert matches[..i + 1][..i] == matches[..i];
      if SameSymbols(bindings, matches[i]) { candidates := candidates + [matches[i]]; }
    }
    assert matches[..|matches|] == matches;
    if |candidates| != 1 { return Raised; }
    var p := candidates[0];
    assert p in candidates && candidates == [p];
    assert SidesBound(bindings, p) by { SymbolsBound(bindings, p); }
    if !SideMatches(byId, bindings, p.left) || !SideMatches(byId, bindings, p.right) {
      forall q ensures !Matches(byId, matches, bindings, q) {
        assert [q] == [p] ==> q == p;
      }
      return Raised;
    }
    return Ok(p);
  }

  // ----- verify_wait_cycle

  /** `{p["backend_pid"]: p for p in participants.values()}`, where the later of two equal pids would win. */
  ghost predicate ByPid(bindings: Bindings, byPid: map<int, Participant>)
  {
    && (forall s :: s in bindings ==> bindings[s].pid in byPid)
    && (forall pid :: pid in byPid ==> byPid[pid] in bindings.Values && byPid[pid].pid == pid)
  }

  /** An edge between two different participants, on the resource its waiter takes second. */
  predicate EdgeMatches(byPid: map<int, Participant>, e: WaitEdge)
  {
    && e.waiter in byPid && e.blocker in byPid && e.waiter != e.blocker
    && e.waiterExecution == byPid[e.waiter].execution
    && e.blockerExecution == byPid[e.blocker].execution
    && e.resource == byPid[e.waiter].order.1
  }

  ghost predicate Waits(edges: seq<WaitEdge>, a: int, b: int)
  {
    exists e :: e in edges && e.waiter == a && e.blocker == b
  }

  /** All edges match, and both participants wait for each other. */
  ghost predicate MutualWait(byPid: map<int, Participant>, edges: seq<WaitEdge>)
  {
    && |byPid| == 2
    && (forall e :: e in edges ==>
          && e.waiter in byPid && e.blocker in byPid - {e.waiter}
          && e == WaitEdge(e.waiter, e.blocker, byPid[e.waiter].execution, byPid[e.blocker].execution,
                           byPid[e.waiter].order.1))
    && (forall a, b :: a in byPid && b in byPid && a != b ==> Waits(edges, a, b))
  }

  ghost predicate DistinctPids(bindings: Bindings)
  {
    forall s, t :: s in bindings && t in bindings && bindings[s].pid == bindings[t].pid ==> s == t
  }

  ghost function Table(bindings: Bindings): (r: map<int, Participant>)
    requires DistinctPids(bindings)
    ensures ByPid(bindings, r)
  {
    map s | s in bindings :: bindings[s].pid := bindings[s]
  }

  lemma OneTable(bindings: Bindings, byPid: map<int, Participant>)
    requires DistinctPids(bindings) && ByPid(bindings, byPid)
    ensures byPid == Table(bindings)
  {
    var t := Table(bindings);
    hide Table;
    hide DistinctPids;
    hide ByPid;
    forall pid | pid in byPid ensures pid in t && byPid[pid] == t[pid] { SameEntry(bindings, byPid, t, pid); }
    forall pid | pid in t ensures pid in byPid { SameEntry(bindings, t, byPid, pid); }
  }

  lemma SameEntry(bindings: Bindings, x: map<int, Participant>, y: map<int, Participant>, pid: int)
    requires DistinctPids(bindings) && ByPid(bindings, x) && ByPid(bindings, y) && pid in x
    ensures pid in y && x[pid] == y[pid]
  {
    var s :| s in bindings && bindings[s] == x[pid];
    SamePid(bindings, s, y[pid]);
  }

  lemma SamePid(bindings: Bindings, s: string, p: Participant)
    requires DistinctPids(bindings) && s in bindings && p in bindings.Values && p.pid == bindings[s].pid
    ensures p == bindings[s]
  {
    var u :| u in bindings && bindings[u] == p;
  }

  method PidTable(bindings: Bindings) returns (byPid: map<int, Participant>)
    ensures ByPid(bindings, byPid)
  {
    byPid := map[];
    var rest := bindings.Keys;
    while rest != {}
      invariant rest <= bindings.Keys
      invariant forall s :: s in bindings && s !in rest ==> bindings[s].pid in byPid
      invariant forall pid :: pid in byPid ==> byPid[pid] in bindings.Values && byPid[pid].pid == pid
      decreases |rest|
    {
      var s :| s in rest;
      byPid := byPid[bindings[s].pid := bindings[s]];
      rest := rest - {s};
    }
  }

  /** `verify_wait_cycle`, on the participants by pid. */
  method VerifyWaitCycle(byPid: map<int, Participant>, edges: seq<WaitEdge>) returns (ok: bool)
    ensures ok <==> MutualWait(byPid, edges)
  {
    if |byPid| != 2 { return false; }
    var directed: set<(int, int)> := {};
    for i := 0 to |edges|
      invariant forall k :: 0 <= k < i ==> EdgeMatches(byPid, edges[k])
      invariant forall a, b :: (a, b) in directed <==> Waits(edges[..i], a, b)
    {
      var e := edges[i];
      if !EdgeMatches(byPid, e) {
        assert e in edges;
        return false;
      }
      WaitsMore(edges, i);
      directed := directed + {(e.waiter, e.blocker)};
    }
    assert edges[..|edges|] == edges;
    var pids := SortedElements(byPid.Keys, PidKey);
    CountDistinct(pids, byPid.Keys);
    var left, right := pids[0], pids[1];
    TwoOnly(byPid.Keys, left, right);
    return (left, right) in directed && (right, left) in directed;
  }

  function PidKey(pid: int): Key { Num(pid) }

  lemma WaitsMore(edges: seq<WaitEdge>, i: nat)
    requires i < |edges|
    ensures forall a, b :: Waits(edges[..i + 1], a, b) <==>
              Waits(edges[..i], a, b) || (a, b) == (edges[i].waiter, edges[i].blocker)
  {
    assert edges[..i + 1] == edges[..i] + [edges[i]];
    assert forall e :: e in edges[..i + 1] <==> e in edges[..i] || e == edges[i];
  }

  lemma TwoOnly(s: set<int>, a: int, b: int)
    requires |s| == 2 && a in s && b in s && a != b
    ensures s == {a, b}
  {
    assert |s - {a} - {b}| == 0;
  }

  // ----- verify_deadlock_event

  /** v is the first participant on the victim's backend, and the one the event names as aborted. */
  ghost predicate VictimMatches(ps: seq<Participant>, event: DeadlockEvent, v: Participant)
  {
    && event.observed && event.sqlstate == "40P01"
    && FirstOn(ps, event.victim, v)
    && v.execution == event.victimExecution && v.aborted && v.sqlstate == Some("40P01")
  }

  ghost predicate FirstOn(ps: seq<Participant>, pid: int, v: Participant)
  {
    exists i :: 0 <= i < |ps| && ps[i] == v && v.pid == pid && forall j :: 0 <= j < i ==> ps[j].pid != pid
  }

  lemma FirstOnUnique(ps: seq<Participant>, pid: int, v: Participant, u: Participant)
    requires FirstOn(ps, pid, v) && FirstOn(ps, pid, u)
    ensures v == u
  {
  }

  /** `verify_deadlock_event`, on the participants in the order of their bindings. */
  method VerifyDeadlockEvent(ps: seq<Participant>, event: DeadlockEvent) returns (r: Result<Participant>)
    ensures r.Ok? ==> VictimMatches(ps, event, r.value)
    ensures r.Raised? ==> forall v :: !VictimMatches(ps, event, v)
  {
    if !event.observed || event.sqlstate != "40P01" { return Raised; }
    var i := 0;
    while i < |ps| && ps[i].pid != event.victim
      invariant 0 <= i <= |ps|
      invariant forall j :: 0 <= j < i ==> ps[j].pid != event.victim
    {
      i := i + 1;
    }
    if i == |ps| { return Raised; }
    var v := ps[i];
    assert FirstOn(ps, event.victim, v);
    if v.execution != event.victimExecution || !v.aborted || v.sqlstate != Some("40P01") {
      forall u | FirstOn(ps, event.victim, u) ensures u == v { FirstOnUnique(ps, event.victim, u, v); }
      return Raised;
    }
    return Ok(v);
  }

  // ----- the confirmation

  /** The database stage: what it was computed for, whether the event was observed, and its preconditions. */
  datatype Projection = Projection(identity: Identity, eventObserved: bool, matches: seq<Precondition>)

  datatype Confirmation = Confirmation(precondition: Precondition, participants: Bindings, victim: Participant)

  predicate SameIdentity(declared: Static, runtime: Runtime, projection: Projection, correlated: Identity)
  {
    && runtime.identity.system == declared.system && runtime.identity.revision == declared.revision
    && projection.identity == runtime.identity && correlated == runtime.identity
  }

  ghost predicate Confirmed(declared: Static, runtime: Runtime, projection: Projection, correlated: Identity,
                            c: Correlation, r: Confirmation)
  {
    && RuntimeValid(runtime) && HasForm(correlated, c) && projection.eventObserved
    && runtime.identity == projection.identity == correlated ==
         Identity(declared.system, declared.revision, correlated.incident)
    && AllExecuted(ById(runtime.executions, ExecutionId), c.participants)
    && r.participants == ById(c.participants, Symbol)
    && Matches(ById(declared.facts, FactId), projection.matches, r.participants, r.precondition)
    && DistinctPids(r.participants) && MutualWait(Table(r.participants), c.edges)
    && VictimMatches(c.participants, c.event, r.victim)
  }

  /** With two code paths, two backends means distinct backends. */
  lemma TwoBackends(bindings: Bindings, byPid: map<int, Participant>, p: Precondition)
    requires SameSymbols(bindings, p) && ByPid(bindings, byPid) && |byPid| == 2
    ensures DistinctPids(bindings)
  {
    SymbolsBound(bindings, p);
    var m, n := bindings[p.left.codePath].pid, bindings[p.right.codePath].pid;
    forall pid | pid in byPid ensures pid == m || pid == n {
      var s :| s in bindings && bindings[s] == byPid[pid];
      assert s in {p.left.codePath, p.right.codePath};
    }
    assert |byPid.Keys| == |byPid|;
    if m == n { AtMostOne(byPid.Keys, m); }
  }

  lemma AtMostOne(s: set<int>, m: int)
    requires s <= {m}
    ensures |s| <= 1
  {
    assert |{m} - s| == |{m}| - |s|;
  }

  /** `project`. */
  method Confirm(declared: Static, runtime: Runtime, projection: Projection, correlated: Identity, c: Correlation)
    returns (r: Result<Confirmation>)
    ensures r.Ok? <==> exists x :: Confirmed(declared, runtime, projection, correlated, c, x)
    ensures r.Ok? ==> Confirmed(declared, runtime, projection, correlated, c, r.value)
  {
    hide AllExecuted;
    hide Matches;
    hide ByPid;
    hide DistinctPids;
    hide MutualWait;
    hide VictimMatches;
    hide SameSymbols;
    hide RuntimeValid;
    hide CorrelationFits;
    hide HasForm;
    var valid := ValidateRuntime(runtime);
    if !valid || !CorrelationFits(correlated, c) { return Raised; }
    if !projection.eventObserved || !SameIdentity(declared, runtime, projection, correlated) { return Raised; }
    var bound := RuntimeBindings(runtime.executions, c.participants);
    if bound.Raised? { return Raised; }
    var bindings := bound.value;
    var matched := MatchingPrecondition(declared.facts, projection.matches, bindings);
    if matched.Raised? { return Raised; }
    MatchedSymbols(ById(declared.facts, FactId), projection.matches, bindings, matched.value);
    var byPid := PidTable(bindings);
    var cycle := VerifyWaitCycle(byPid, c.edges);
    if !cycle {
      if DistinctPids(bindings) { OneTable(bindings, byPid); }
      return Raised;
    }
    TwoWaiting(byPid, c.edges);
    TwoBackends(bindings, byPid, matched.value);
    OneTable(bindings, byPid);
    var victim := VerifyDeadlockEvent(c.participants, c.event);
    if victim.Raised? { return Raised; }
    r := Ok(Confirmation(matched.value, bindings, victim.value));
    assert Confirmed(declared, runtime, projection, correlated, c, r.value);
  }

  lemma MatchedSymbols(facts: map<string, Fact>, matches: seq<Precondition>, bindings: Bindings, p: Precondition)
    requires Matches(facts, matches, bindings, p)
    ensures p in matches && SameSymbols(bindings, p) && SidesBound(bindings, p)
    ensures SideMatches(facts, bindings, p.left) && SideMatches(facts, bindings, p.right)
  {
  }

  lemma TwoWaiting(byPid: map<int, Participant>, edges: seq<WaitEdge>)
    requires MutualWait(byPid, edges)
    ensures |byPid| == 2
  {
  }
}
