/** scripts/concrete_system_facts.py: sourced facts about one system, and its opposing resource orders. */
module AccessOrders {
  import opened Prelude
  import opened Keys

  datatype Kind = CodeSymbol | Job | TransactionKind | DataResource | OtherKind

  /** An empty rule stands for a missing one. */
  datatype Entity = Entity(id: string, kind: Kind, inferred: bool, rule: string)

  /** An access order needs both context references; other facts may carry either. */
  datatype Relation =
    | AccessesBefore(codePath: string, transaction: string)
    | OtherRelation(path: Option<string>, within: Option<string>)

  datatype Fact = Fact(id: string, relation: Relation, subject: string, obj: string, inferred: bool, rule: string)

  // ----- dictionaries and sets of ids

  /** `{key(x): x for x in xs}`: a later element replaces an earlier one. */
  function ById<T>(xs: seq<T>, key: T -> string): (r: map<string, T>)
    ensures forall x :: x in xs ==> key(x) in r
    ensures forall id :: id in r ==> r[id] in xs && key(r[id]) == id
  {
    if xs == [] then map[]
    else
      var last := xs[|xs| - 1];
      assert forall x :: x in xs ==> x in xs[..|xs| - 1] || x == last;
      ById(xs[..|xs| - 1], key)[key(last) := last]
  }

  lemma {:induction false} ByUniqueId<T>(xs: seq<T>, key: T -> string, x: T)
    requires NamedApart(xs, key) && x in xs
    ensures ById(xs, key)[key(x)] == x
  {
    var y := ById(xs, key)[key(x)];
    var i :| 0 <= i < |xs| && xs[i] == x;
    var j :| 0 <= j < |xs| && xs[j] == y;
  }

  function Ids<T>(xs: seq<T>, key: T -> string): (r: set<string>)
    ensures forall id :: id in r <==> exists i :: 0 <= i < |xs| && key(xs[i]) == id
  {
    set i | 0 <= i < |xs| :: key(xs[i])
  }

  lemma UniquePrefix<T>(xs: seq<T>, key: T -> string)
    requires xs != []
    ensures var rest, last := xs[..|xs| - 1], xs[|xs| - 1];
            && Ids(xs, key) == Ids(rest, key) + {key(last)}
            && (NamedApart(xs, key) <==> NamedApart(rest, key) && key(last) !in Ids(rest, key))
  {
    var rest, last := xs[..|xs| - 1], xs[|xs| - 1];
    assert xs == rest + [last];
    assert forall i :: 0 <= i < |rest| ==> rest[i] == xs[i];
    forall id ensures id in Ids(xs, key) <==> id in Ids(rest, key) || id == key(last) {
      if id in Ids(rest, key) {
        var i :| 0 <= i < |rest| && key(rest[i]) == id;
        assert key(xs[i]) == id;
      }
    }
  }

  /** `len(ids) == len(set(ids))` says that no id repeats. */
  lemma {:induction false} UniqueByCount<T>(xs: seq<T>, key: T -> string)
    ensures |Ids(xs, key)| <= |xs|
    ensures |Ids(xs, key)| == |xs| <==> NamedApart(xs, key)
  {
    hide Ids;
    if xs == [] {
      assert Ids(xs, key) == {};
    } else {
      UniquePrefix(xs, key);
      UniqueByCount(xs[..|xs| - 1], key);
    }
  }

  /** A dictionary by id has exactly the ids of its list as keys. */
  lemma {:induction false} BoundIds<T>(xs: seq<T>, key: T -> string)
    ensures ById(xs, key).Keys == Ids(xs, key)
  {
    var b := ById(xs, key);
    hide ById;
    forall id ensures id in b <==> id in Ids(xs, key) {
      if id in b {
        assert b[id] in xs;
        var k :| 0 <= k < |xs| && xs[k] == b[id];
        assert key(xs[k]) == id;
      }
      if id in Ids(xs, key) {
        var k :| 0 <= k < |xs| && key(xs[k]) == id;
        assert xs[k] in xs;
      }
    }
  }

  function EntityId(e: Entity): string { e.id }

  function FactId(f: Fact): string { f.id }

  // ----- well-formed documents

  function Mentioned(f: Fact): set<string>
  {
    {f.subject, f.obj} +
    match f.relation
    case AccessesBefore(p, t) => {p, t}
    case OtherRelation(p, t) => (if p.Some? then {p.value} else {}) + (if t.Some? then {t.value} else {})
  }

  /** An access order connects data resources, within a transaction, on a code path. */
  predicate OrderWellKinded(byId: map<string, Entity>, f: Fact)
    requires Mentioned(f) <= byId.Keys
  {
    f.relation.AccessesBefore? ==>
      && byId[f.subject].kind == DataResource && byId[f.obj].kind == DataResource
      && byId[f.relation.transaction].kind == TransactionKind
      && (byId[f.relation.codePath].kind == CodeSymbol || byId[f.relation.codePath].kind == Job)
  }

  predicate FactSound(byId: map<string, Entity>, f: Fact)
  {
    Mentioned(f) <= byId.Keys && (f.inferred ==> f.rule != "") && OrderWellKinded(byId, f)
  }

  ghost predicate IsEntity(entities: seq<Entity>, id: string)
  {
    exists e :: e in entities && e.id == id
  }

  ghost predicate IsA(entities: seq<Entity>, id: string, kind: Kind)
  {
    exists e :: e in entities && e.id == id && e.kind == kind
  }

  /**
    What a fact refers to is there; an access order is between data resources, within a
    transaction, on a symbol or a job.
   */
  ghost predicate Refers(entities: seq<Entity>, f: Fact)
  {
    match f.relation
    case AccessesBefore(path, transaction) =>
      && IsA(entities, f.subject, DataResource) && IsA(entities, f.obj, DataResource)
      && (IsA(entities, path, CodeSymbol) || IsA(entities, path, Job)) && IsA(entities, transaction, TransactionKind)
    case OtherRelation(path, transaction) =>
      && IsEntity(entities, f.subject) && IsEntity(entities, f.obj)
      && (path.Some? ==> IsEntity(entities, path.value))
      && (transaction.Some? ==> IsEntity(entities, transaction.value))
  }

  /** No id repeats, everything inferred has a rule, and every fact refers to entities of the right kinds. */
  ghost predicate Sound(entities: seq<Entity>, facts: seq<Fact>)
  {
    && NamedApart(entities, EntityId) && NamedApart(facts, FactId)
    && (forall e :: e in entities ==> e.inferred ==> e.rule != "")
    && (forall f :: f in facts ==> (f.inferred ==> f.rule != "") && Refers(entities, f))
  }

  /** The dictionary finds an entity exactly when it is there, and then that one. */
  lemma {:induction false} Finds(entities: seq<Entity>, id: string)
    requires NamedApart(entities, EntityId)
    ensures var byId := ById(entities, EntityId);
            && (id in byId <==> IsEntity(entities, id))
            && forall kind :: IsA(entities, id, kind) <==> id in byId && byId[id].kind == kind
  {
    hide NamedApart;
    var byId := ById(entities, EntityId);
    forall e | e in entities && e.id == id ensures id in byId && byId[id] == e {
      assert EntityId(e) in byId;
      ByUniqueId(entities, EntityId, e);
    }
    if id in byId { assert byId[id] in entities && EntityId(byId[id]) == id; }
    hide ById;
  }

  lemma {:induction false} SoundMeans(entities: seq<Entity>, f: Fact)
    requires NamedApart(entities, EntityId)
    ensures FactSound(ById(entities, EntityId), f) <==> (f.inferred ==> f.rule != "") && Refers(entities, f)
  {
    hide ById;
    hide NamedApart;
    hide IsA;
    hide IsEntity;
    Finds(entities, f.subject);
    Finds(entities, f.obj);
    match f.relation
    case AccessesBefore(path, transaction) =>
      Finds(entities, path);
      Finds(entities, transaction);
    case OtherRelation(path, transaction) =>
      if path.Some? { Finds(entities, path.value); }
      if transaction.Some? { Finds(entities, transaction.value); }
  }

  /** `validate_semantics`. */
  method ValidateSemantics(entities: seq<Entity>, facts: seq<Fact>) returns (ok: bool)
    ensures ok <==> Sound(entities, facts)
  {
    hide ById;
    hide NamedApart;
    hide Ids;
    hide FactSound;
    hide Refers;
    UniqueByCount(entities, EntityId);
    UniqueByCount(facts, FactId);
    if |Ids(entities, EntityId)| != |entities| || |Ids(facts, FactId)| != |facts| { return false; }
    var byId := ById(entities, EntityId);
    for i := 0 to |entities|
      invariant forall k :: 0 <= k < i ==> entities[k].inferred ==> entities[k].rule != ""
    {
      if entities[i].inferred && entities[i].rule == "" { return false; }
    }
    for i := 0 to |facts|
      invariant forall k :: 0 <= k < i ==> (facts[k].inferred ==> facts[k].rule != "") && Refers(entities, facts[k])
    {
      SoundMeans(entities, facts[i]);
      if !FactSound(byId, facts[i]) {
        assert facts[i] in facts;
        return false;
      }
    }
    return true;
  }

  // ----- opposing access orders

  function Min(a: string, b: string): string { if TextLess(b, a) then b else a }

  function Max(a: string, b: string): string { if TextLess(b, a) then a else b }

  lemma MinMaxSwap(a: string, b: string)
    ensures Min(a, b) == Min(b, a) && Max(a, b) == Max(b, a)
  {
    if TextLess(a, b) && TextLess(b, a) {
      TextTransitive(a, b, a);
      TextIrreflexive(a);
    }
    TextTotal(a, b);
  }

  /** What makes two findings the same: the resource pair and the code path pair. */
  type OrderKey = (string, string, string, string)

  datatype Side = Side(fact: string, codePath: string, transaction: string)

  datatype Precondition = Precondition(resources: (string, string), left: Side, right: Side) {
    function Key(): OrderKey {
      (Min(resources.0, resources.1), Max(resources.0, resources.1),
       Min(left.codePath, right.codePath), Max(left.codePath, right.codePath))
    }
  }

  function SideOf(f: Fact): Side
    requires f.relation.AccessesBefore?
  {
    Side(f.id, f.relation.codePath, f.relation.transaction)
  }

  function PreconditionOf(l: Fact, r: Fact): Precondition
    requires l.relation.AccessesBefore? && r.relation.AccessesBefore?
  {
    Precondition((l.subject, l.obj), SideOf(l), SideOf(r))
  }

  /** Two access orders take the same two resources in opposite order on different code paths. */
  predicate Opposing(l: Fact, r: Fact)
  {
    && l.relation.AccessesBefore? && r.relation.AccessesBefore?
    && l.subject == r.obj && l.obj == r.subject
    && l.relation.codePath != r.relation.codePath
  }

  /** Two facts of the document, by id order, oppose each other under this key. */
  ghost predicate Opposed(facts: seq<Fact>, key: OrderKey)
  {
    exists l, r :: l in facts && r in facts && l.id != r.id && Opposing(l, r) && PreconditionOf(l, r).Key() == key
  }

  /** p reports two facts of the document. */
  ghost predicate Reports(facts: seq<Fact>, p: Precondition)
  {
    exists l, r :: l in facts && r in facts && TextLess(l.id, r.id) && Opposing(l, r) && p == PreconditionOf(l, r)
  }

  /** The keys of a report. */
  ghost function KeySet(ps: seq<Precondition>): set<OrderKey>
  {
    set p | p in ps :: p.Key()
  }

  /** Each key with opposing orders is reported exactly once, and nothing else is. */
  ghost predicate Findings(facts: seq<Fact>, ps: seq<Precondition>)
  {
    && (forall p :: p in ps ==> Reports(facts, p))
    && (forall i, j :: 0 <= i < j < |ps| ==> ps[i].Key() != ps[j].Key())
    && (forall key :: Opposed(facts, key) <==> key in KeySet(ps))
  }

  lemma KeySymmetric(l: Fact, r: Fact)
    requires Opposing(l, r)
    ensures Opposing(r, l) && PreconditionOf(l, r).Key() == PreconditionOf(r, l).Key()
  {
    MinMaxSwap(l.subject, l.obj);
    MinMaxSwap(l.relation.codePath, r.relation.codePath);
  }

  function OrderFacts(facts: seq<Fact>): (r: seq<Fact>)
    ensures forall f :: f in r <==> f in facts && f.relation.AccessesBefore?
  {
    if facts == [] then []
    else (if facts[0].relation.AccessesBefore? then [facts[0]] else []) + OrderFacts(facts[1..])
  }

  /** Facts l and r are reported as a pair. */
  predicate Pairs(l: Fact, r: Fact)
  {
    TextLess(l.id, r.id) && Opposing(l, r)
  }

  /** What is reported comes from the facts, once per key, and its keys are the ones seen. */
  ghost predicate Recorded(fs: seq<Fact>, seen: set<OrderKey>, ps: seq<Precondition>)
  {
    && (forall k :: 0 <= k < |ps| ==> ps[k].Key() in seen && ReportsOf(fs, ps[k]))
    && (forall a, b :: 0 <= a < b < |ps| ==> ps[a].Key() != ps[b].Key())
    && (forall key :: key in seen ==> HasKey(ps, key))
  }

  /** The keys of all pairs compared before facts i and j have been seen. */
  ghost predicate Covered(fs: seq<Fact>, i: nat, j: nat, seen: set<OrderKey>)
  {
    forall a, b :: 0 <= a < |fs| && 0 <= b < |fs| && (a < i || (a == i && b < j)) && Pairs(fs[a], fs[b]) ==>
      PreconditionOf(fs[a], fs[b]).Key() in seen
  }

  /** What the loops have found before comparing fact i with fact j. */
  ghost predicate Found(fs: seq<Fact>, i: nat, j: nat, seen: set<OrderKey>, ps: seq<Precondition>)
  {
    Recorded(fs, seen, ps) && Covered(fs, i, j, seen)
  }

  ghost predicate ReportsOf(fs: seq<Fact>, p: Precondition)
  {
    exists a, b :: 0 <= a < |fs| && 0 <= b < |fs| && Pairs(fs[a], fs[b]) && p == PreconditionOf(fs[a], fs[b])
  }

  ghost predicate HasKey(ps: seq<Precondition>, key: OrderKey)
  {
    exists k :: 0 <= k < |ps| && ps[k].Key() == key
  }

  lemma HasKeyMore(ps: seq<Precondition>, p: Precondition)
    ensures HasKey(ps + [p], p.Key()) && forall key :: HasKey(ps, key) ==> HasKey(ps + [p], key)
  {
    assert (ps + [p])[|ps|] == p;
    forall key | HasKey(ps, key) ensures HasKey(ps + [p], key) {
      var k :| 0 <= k < |ps| && ps[k].Key() == key;
      assert (ps + [p])[k] == ps[k];
    }
  }

  lemma RecordedMore(fs: seq<Fact>, i: nat, j: nat, seen: set<OrderKey>, ps: seq<Precondition>)
    requires i < |fs| && j < |fs| && Recorded(fs, seen, ps) && Pairs(fs[i], fs[j])
    requires PreconditionOf(fs[i], fs[j]).Key() !in seen
    ensures var p := PreconditionOf(fs[i], fs[j]); Recorded(fs, seen + {p.Key()}, ps + [p])
  {
    hide TextLess;
    hide Precondition.Key;
    var p := PreconditionOf(fs[i], fs[j]);
    assert ReportsOf(fs, p);
    hide Pairs;
    hide ReportsOf;
    hide PreconditionOf;
    HasKeyMore(ps, p);
    hide HasKey;
  }

  lemma CoveredMore(fs: seq<Fact>, i: nat, j: nat, seen: set<OrderKey>, more: set<OrderKey>)
    requires i < |fs| && j < |fs| && Covered(fs, i, j, seen) && seen <= more
    requires Pairs(fs[i], fs[j]) ==> PreconditionOf(fs[i], fs[j]).Key() in more
    ensures Covered(fs, i, j + 1, more)
  {
    hide TextLess;
    hide PreconditionOf;
    hide Precondition.Key;
  }

  /** `opposing_access_orders`. */
  method OpposingAccessOrders(facts: seq<Fact>) returns (ps: seq<Precondition>)
    ensures Findings(facts, ps)
  {
    hide TextLess;
    hide Recorded;
    hide Covered;
    hide Findings;
    hide Opposing;
    hide Precondition.Key;
    var fs := OrderFacts(facts);
    ps := [];
    var seen: set<OrderKey> := {};
    NothingFound(fs);
    for i := 0 to |fs|
      invariant Found(fs, i, 0, seen, ps)
    {
      for j := 0 to |fs|
        invariant Found(fs, i, j, seen, ps)
      {
        if !Pairs(fs[i], fs[j]) {
          CoveredMore(fs, i, j, seen, seen);
          continue;
        }
        PairsOrders(fs[i], fs[j]);
        var p := PreconditionOf(fs[i], fs[j]);
        if p.Key() in seen {
          CoveredMore(fs, i, j, seen, seen);
          continue;
        }
        RecordedMore(fs, i, j, seen, ps);
        CoveredMore(fs, i, j, seen, seen + {p.Key()});
        seen := seen + {p.Key()};
        ps := ps + [p];
      }
      RowDone(fs, i, seen);
    }
    AllFound(facts, fs, seen, ps);
  }

  lemma PairsOrders(l: Fact, r: Fact)
    requires Pairs(l, r)
    ensures l.relation.AccessesBefore? && r.relation.AccessesBefore?
  {
  }

  lemma NothingFound(fs: seq<Fact>)
    ensures Found(fs, 0, 0, {}, [])
  {
  }

  lemma RowDone(fs: seq<Fact>, i: nat, seen: set<OrderKey>)
    requires i < |fs| && Covered(fs, i, |fs|, seen)
    ensures Covered(fs, i + 1, 0, seen)
  {
    hide TextLess;
    hide PreconditionOf;
    hide Precondition.Key;
  }

  lemma {:induction false} ReportedFacts(facts: seq<Fact>, fs: seq<Fact>, p: Precondition)
    requires fs == OrderFacts(facts) && ReportsOf(fs, p)
    ensures Reports(facts, p) && Opposed(facts, p.Key())
  {
    hide Precondition.Key;
    var a, b :| 0 <= a < |fs| && 0 <= b < |fs| && Pairs(fs[a], fs[b]) && p == PreconditionOf(fs[a], fs[b]);
    assert fs[a] in fs && fs[b] in fs;
    hide OrderFacts;
    TextIrreflexive(fs[a].id);
  }

  lemma {:induction false} OpposedSeen(facts: seq<Fact>, fs: seq<Fact>, seen: set<OrderKey>, key: OrderKey)
    requires fs == OrderFacts(facts) && Covered(fs, |fs|, 0, seen) && Opposed(facts, key)
    ensures key in seen
  {
    var l, r :| l in facts && r in facts && l.id != r.id && Opposing(l, r) && PreconditionOf(l, r).Key() == key;
    KeySymmetric(l, r);
    TextTotal(l.id, r.id);
    assert l in fs && r in fs;
    hide OrderFacts;
    hide TextLess;
    hide Precondition.Key;
    var a :| 0 <= a < |fs| && fs[a] == l;
    var b :| 0 <= b < |fs| && fs[b] == r;
    assert Pairs(fs[a], fs[b]) || Pairs(fs[b], fs[a]);
  }

  lemma {:induction false} AllFound(facts: seq<Fact>, fs: seq<Fact>, seen: set<OrderKey>, ps: seq<Precondition>)
    requires fs == OrderFacts(facts) && Found(fs, |fs|, 0, seen, ps)
    ensures Findings(facts, ps)
  {
    hide OrderFacts;
    hide Covered;
    hide Reports;
    hide Opposed;
    hide ReportsOf;
    hide Precondition.Key;
    forall k | 0 <= k < |ps| ensures Reports(facts, ps[k]) && Opposed(facts, ps[k].Key()) {
      ReportedFacts(facts, fs, ps[k]);
    }
    forall key | Opposed(facts, key) ensures key in KeySet(ps) {
      OpposedSeen(facts, fs, seen, key);
      assert HasKey(ps, key);
      var k :| 0 <= k < |ps| && ps[k].Key() == key;
      assert ps[k] in ps;
    }
  }

  // ----- laws

  /** The fact says that on path x resource a is accessed before resource b. */
  predicate Takes(f: Fact, a: string, b: string, x: string)
  {
    f.relation.AccessesBefore? && f.relation.codePath == x && f.subject == a && f.obj == b
  }

  /** Two facts say that x takes a before b, and another path y takes b before a. */
  ghost predicate Conflict(facts: seq<Fact>, a: string, b: string, x: string, y: string)
  {
    exists l, r :: l in facts && r in facts && l.id != r.id && x != y && Takes(l, a, b, x) && Takes(r, b, a, y)
  }

  predicate Unordered(p: (string, string), a: string, b: string)
  {
    p == (a, b) || p == (b, a)
  }

  /** The finding is about these two resources and these two code paths, in whatever order. */
  predicate About(p: Precondition, a: string, b: string, x: string, y: string)
  {
    Unordered(p.resources, a, b) && Unordered((p.left.codePath, p.right.codePath), x, y)
  }

  lemma MinMaxMean(a: string, b: string, c: string, d: string)
    ensures (Min(a, b), Max(a, b)) == (Min(c, d), Max(c, d)) <==> Unordered((a, b), c, d)
  {
    MinMaxSwap(a, b);
    hide TextLess;
  }

  /** Equal keys mean the same two resources and the same two code paths. */
  lemma KeyMeans(p: Precondition, q: Precondition)
    ensures p.Key() == q.Key() <==> About(p, q.resources.0, q.resources.1, q.left.codePath, q.right.codePath)
  {
    hide Min;
    hide Max;
    MinMaxMean(p.resources.0, p.resources.1, q.resources.0, q.resources.1);
    MinMaxMean(p.left.codePath, p.right.codePath, q.left.codePath, q.right.codePath);
  }

  /** There is a finding about two resources and two paths exactly when two facts conflict over them, and then one. */
  lemma {:induction false} ReportedIff(facts: seq<Fact>, ps: seq<Precondition>, a: string, b: string, x: string,
                                       y: string)
    requires Findings(facts, ps)
    ensures (exists i :: 0 <= i < |ps| && About(ps[i], a, b, x, y)) <==>
            Conflict(facts, a, b, x, y) || Conflict(facts, a, b, y, x)
    ensures forall i, j :: 0 <= i < |ps| && 0 <= j < |ps| && About(ps[i], a, b, x, y) && About(ps[j], a, b, x, y) ==>
              i == j
  {
    hide Precondition.Key;
    if i :| 0 <= i < |ps| && About(ps[i], a, b, x, y) {
      assert Reports(facts, ps[i]);
      Conflicts(facts, ps[i], a, b, x, y);
    }
    if Conflict(facts, a, b, x, y) { IsReported(facts, ps, a, b, x, y); }
    if Conflict(facts, a, b, y, x) { IsReported(facts, ps, a, b, y, x); }
    forall i, j | 0 <= i < j < |ps| && About(ps[i], a, b, x, y) && About(ps[j], a, b, x, y) ensures false {
      KeyMeans(ps[i], ps[j]);
    }
  }

  lemma Conflicts(facts: seq<Fact>, p: Precondition, a: string, b: string, x: string, y: string)
    requires Reports(facts, p) && About(p, a, b, x, y)
    ensures Conflict(facts, a, b, x, y) || Conflict(facts, a, b, y, x)
  {
    var l, r :| l in facts && r in facts && TextLess(l.id, r.id) && Opposing(l, r) && p == PreconditionOf(l, r);
    TextIrreflexive(l.id);
    hide TextLess;
    assert Takes(l, l.subject, l.obj, l.relation.codePath) && Takes(r, r.subject, r.obj, r.relation.codePath);
  }

  lemma IsReported(facts: seq<Fact>, ps: seq<Precondition>, a: string, b: string, x: string, y: string)
    requires Findings(facts, ps) && Conflict(facts, a, b, x, y)
    ensures exists i :: 0 <= i < |ps| && About(ps[i], a, b, x, y)
  {
    hide Precondition.Key;
    var l, r :| l in facts && r in facts && l.id != r.id && x != y && Takes(l, a, b, x) && Takes(r, b, a, y);
    var q := PreconditionOf(l, r);
    assert Opposing(l, r) && Opposed(facts, q.Key());
    assert q.Key() in KeySet(ps);
    var p :| p in ps && p.Key() == q.Key();
    KeyMeans(p, q);
    var i :| 0 <= i < |ps| && ps[i] == p;
    assert About(ps[i], a, b, x, y);
  }

  /** A finding shows the two facts it rests on, the one of the smaller id on the left. */
  lemma FindingShows(facts: seq<Fact>, ps: seq<Precondition>, p: Precondition) returns (l: Fact, r: Fact)
    requires Findings(facts, ps) && p in ps
    ensures l in facts && r in facts && TextLess(l.id, r.id)
    ensures Takes(l, p.resources.0, p.resources.1, p.left.codePath)
    ensures Takes(r, p.resources.1, p.resources.0, p.right.codePath)
    ensures p.left.codePath != p.right.codePath && p.left.fact == l.id && p.right.fact == r.id
    ensures p.left.transaction == l.relation.transaction && p.right.transaction == r.relation.transaction
  {
    assert Reports(facts, p);
    l, r :| l in facts && r in facts && TextLess(l.id, r.id) && Opposing(l, r) && p == PreconditionOf(l, r);
  }

  /** Which keys are reported depends on the set of facts only, not on their order or repetition. */
  lemma KeysIgnoreOrder(facts: seq<Fact>, shuffled: seq<Fact>, ps: seq<Precondition>, qs: seq<Precondition>)
    requires Findings(facts, ps) && Findings(shuffled, qs)
    requires forall f :: f in facts <==> f in shuffled
    ensures |ps| == |qs|
    ensures KeySet(ps) == KeySet(qs)
  {
    forall key ensures Opposed(facts, key) <==> Opposed(shuffled, key) {
    }
    SameCount(ps);
    SameCount(qs);
    assert KeySet(ps) == KeySet(qs);
  }

  lemma {:induction false} SameCount(ps: seq<Precondition>)
    requires forall i, j :: 0 <= i < j < |ps| ==> ps[i].Key() != ps[j].Key()
    ensures |KeySet(ps)| == |ps|
  {
    hide Precondition.Key;
    if ps != [] {
      var rest, last := ps[..|ps| - 1], ps[|ps| - 1];
      SameCount(rest);
      assert ps == rest + [last];
      assert forall p :: p in ps <==> p in rest || p == last;
      assert forall i :: 0 <= i < |rest| ==> rest[i] == ps[i];
      assert last.Key() !in KeySet(rest);
      assert KeySet(ps) == KeySet(rest) + {last.Key()};
    }
  }

  /** In a well-formed document a finding names data resources, transactions and code paths. */
  lemma {:induction false} FindingsWellKinded(entities: seq<Entity>, facts: seq<Fact>, ps: seq<Precondition>,
                                              p: Precondition)
    requires Sound(entities, facts) && Findings(facts, ps) && p in ps
    ensures IsA(entities, p.resources.0, DataResource) && IsA(entities, p.resources.1, DataResource)
    ensures IsA(entities, p.left.transaction, TransactionKind) && IsA(entities, p.right.transaction, TransactionKind)
    ensures IsA(entities, p.left.codePath, CodeSymbol) || IsA(entities, p.left.codePath, Job)
    ensures IsA(entities, p.right.codePath, CodeSymbol) || IsA(entities, p.right.codePath, Job)
    ensures p.left.codePath != p.right.codePath && p.left.fact != p.right.fact
  {
    assert Reports(facts, p);
    var l, r :| l in facts && r in facts && TextLess(l.id, r.id) && Opposing(l, r) && p == PreconditionOf(l, r);
    TextIrreflexive(l.id);
    assert Refers(entities, l) && Refers(entities, r);
  }
}
