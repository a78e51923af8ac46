/**
  scripts/live_diagnosis.py: diagnosis snapshots per scope partition, and the engine that
  caches one until the evidence, or the time, asks for another.
 */
module LiveDiagnosis {
  import opened Prelude
  import opened Keys

  datatype State = Observed | Absent

  datatype Instance = Instance(id: string, observation: string, state: State, observedAt: int,
                               expiresAt: Option<int>, scope: string, content: string)

  datatype Document = Document(incident: string, instances: seq<Instance>)

  datatype Class = Active | Stale | Future

  /** The shape of `resolve_runtime_evidence`: observed but not yet expired is active. */
  function Classify(x: Instance, now: int): Class
  {
    if x.observedAt > now then Future
    else if x.expiresAt.Some? && x.expiresAt.value <= now then Stale
    else Active
  }

  /** One scope partition: its instances by id, a later one replacing an earlier one of the same id. */
  type Members = map<string, Instance>

  function OfClass(m: Members, now: int, c: Class): set<string>
  {
    set id | id in m && Classify(m[id], now) == c
  }

  function ActiveInstances(m: Members, now: int): set<Instance>
  {
    set id | id in m && Classify(m[id], now) == Active :: m[id]
  }

  /** The observations some active instance reports in the given state. */
  function Reported(m: Members, now: int, s: State): set<string>
  {
    set id | id in m && Classify(m[id], now) == Active && m[id].state == s :: m[id].observation
  }

  /**
    The fixed catalog: how scopes normalise to their keys, and everything the causal and
    probe rankings make of the observed, absent, active, stale and future evidence.
   */
  datatype Catalog = Catalog(scopeKey: string -> string,
                             diagnose: (set<string>, set<string>, set<Instance>, set<string>, set<string>) -> string)

  datatype Partition = Partition(scope: string, observed: set<string>, absent: set<string>,
                                 active: set<string>, stale: set<string>, future: set<string>, diagnoses: string)

  /** Contradictory active states make resolution raise. */
  function PartitionAt(c: Catalog, key: string, m: Members, now: int): (r: Result<Partition>)
    ensures r.Ok? ==> r.value.active + r.value.stale + r.value.future == m.Keys
    ensures r.Ok? ==>
              r.value.active !! r.value.stale && r.value.active !! r.value.future && r.value.stale !! r.value.future
  {
    var observed, absent := Reported(m, now, Observed), Reported(m, now, Absent);
    if observed * absent != {} then Raised
    else
      var active, stale, future := OfClass(m, now, Active), OfClass(m, now, Stale), OfClass(m, now, Future);
      assert forall id :: id in m ==> id in active || id in stale || id in future;
      Ok(Partition(key, observed, absent, active, stale, future,
                   c.diagnose(observed, absent, ActiveInstances(m, now), stale, future)))
  }

  // ----- partitions

  /** The partition keys, in order of first appearance. */
  function KeysOf(c: Catalog, xs: seq<Instance>): (r: seq<string>)
    decreases |xs|
  {
    if xs == [] then []
    else
      var rest, k := KeysOf(c, xs[..|xs| - 1]), c.scopeKey(xs[|xs| - 1].scope);
      if k in rest then rest else rest + [k]
  }

  function MembersOf(c: Catalog, xs: seq<Instance>, key: string): Members
    decreases |xs|
  {
    if xs == [] then map[]
    else
      var rest, x := MembersOf(c, xs[..|xs| - 1], key), xs[|xs| - 1];
      if c.scopeKey(x.scope) == key then rest[x.id := x] else rest
  }

  /** `partition_runtime_evidence`: each key with its instances. */
  method Partitions(c: Catalog, xs: seq<Instance>) returns (keys: seq<string>, parts: map<string, Members>)
    ensures keys == SortBy(KeysOf(c, xs), TextKey)
    ensures forall k :: k in KeysOf(c, xs) ==> k in parts && parts[k] == MembersOf(c, xs, k)
  {
    var order: seq<string> := [];
    parts := map[];
    for i := 0 to |xs|
      invariant order == KeysOf(c, xs[..i])
      invariant forall k :: k in parts <==> k in order
      invariant forall k :: if k in parts then parts[k] == MembersOf(c, xs[..i], k)
                            else MembersOf(c, xs[..i], k) == map[]
    {
      assert xs[..i + 1][..i] == xs[..i];
      var k := c.scopeKey(xs[i].scope);
      if k !in parts {
        order := order + [k];
        parts := parts[k := map[]];
      }
      parts := parts[k := parts[k][xs[i].id := xs[i]]];
    }
    assert xs[..|xs|] == xs;
    keys := SortBy(order, TextKey);
  }

  // ----- the next moment anything changes

  /** The times after asOf at which some instance starts or stops being active. */
  ghost predicate Transition(xs: seq<Instance>, asOf: int, t: int)
  {
    t > asOf && exists x :: x in xs && (x.observedAt == t || x.expiresAt == Some(t))
  }

  function Sooner(a: Option<int>, t: int): Option<int>
  {
    if a.None? || t < a.value then Some(t) else a
  }

  function NextTransition(xs: seq<Instance>, asOf: int): Option<int>
    decreases |xs|
  {
    if xs == [] then None
    else
      var rest, x := NextTransition(xs[..|xs| - 1], asOf), xs[|xs| - 1];
      var one := if x.observedAt > asOf then Sooner(rest, x.observedAt) else rest;
      if x.expiresAt.Some? && x.expiresAt.value > asOf then Sooner(one, x.expiresAt.value) else one
  }

  /** `next_evidence_transition`. */
  method FindTransition(xs: seq<Instance>, asOf: int) returns (r: Option<int>)
    ensures r == NextTransition(xs, asOf)
  {
    r := None;
    for i := 0 to |xs|
      invariant r == NextTransition(xs[..i], asOf)
    {
      assert xs[..i + 1][..i] == xs[..i];
      if xs[i].observedAt > asOf { r := Sooner(r, xs[i].observedAt); }
      if xs[i].expiresAt.Some? && xs[i].expiresAt.value > asOf { r := Sooner(r, xs[i].expiresAt.value); }
    }
    assert xs[..|xs|] == xs;
  }

  /** It is the earliest transition. */
  lemma {:induction false} NextIsEarliest(xs: seq<Instance>, asOf: int)
    ensures NextTransition(xs, asOf).None? <==> forall t :: !Transition(xs, asOf, t)
    ensures NextTransition(xs, asOf).Some? ==> Transition(xs, asOf, NextTransition(xs, asOf).value)
    ensures forall t :: Transition(xs, asOf, t) ==>
              NextTransition(xs, asOf).Some? && NextTransition(xs, asOf).value <= t
    decreases |xs|
  {
    if xs != [] {
      var ys, x := xs[..|xs| - 1], xs[|xs| - 1];
      assert xs == ys + [x];
      NextIsEarliest(ys, asOf);
      forall t ensures Transition(xs, asOf, t) <==>
                       Transition(ys, asOf, t) || (t > asOf && (x.observedAt == t || x.expiresAt == Some(t))) {
        if Transition(ys, asOf, t) {
          var y :| y in ys && (y.observedAt == t || y.expiresAt == Some(t));
          assert y in xs;
        }
        if t > asOf && (x.observedAt == t || x.expiresAt == Some(t)) { assert x in xs; }
      }
    }
  }

  /** The next time anything changes, if it ever does. */
  ghost predicate IsNext(xs: seq<Instance>, asOf: int, next: Option<int>)
  {
    && (next.None? <==> forall t :: !Transition(xs, asOf, t))
    && (next.Some? ==> Transition(xs, asOf, next.value) && forall t :: Transition(xs, asOf, t) ==> next.value <= t)
  }

  // ----- snapshots

  datatype Snapshot = Snapshot(incident: string, asOf: int, revision: nat, next: Option<int>,
                               partitions: seq<Partition>)

  function PartitionsAt(c: Catalog, xs: seq<Instance>, keys: seq<string>, now: int): Result<seq<Partition>>
    decreases |keys|
  {
    if keys == [] then Ok([])
    else
      var k := keys[|keys| - 1];
      match PartitionsAt(c, xs, keys[..|keys| - 1], now)
      case Raised => Raised
      case Ok(ps) =>
        match PartitionAt(c, k, MembersOf(c, xs, k), now)
        case Raised => Raised
        case Ok(p) => Ok(ps + [p])
  }

  function SnapshotAt(c: Catalog, d: Document, now: int, revision: nat): Result<Snapshot>
  {
    match PartitionsAt(c, d.instances, SortBy(KeysOf(c, d.instances), TextKey), now)
    case Raised => Raised
    case Ok(ps) => Ok(Snapshot(d.incident, now, revision, NextTransition(d.instances, now), ps))
  }

  // ----- what a snapshot shows, in terms of the instances

  /** x is an instance of this scope, and no later one of the scope has its id. */
  ghost predicate Latest(c: Catalog, xs: seq<Instance>, key: string, x: Instance)
  {
    exists i :: 0 <= i < |xs| && xs[i] == x && LatestAt(c, xs, key, i)
  }

  predicate LatestAt(c: Catalog, xs: seq<Instance>, key: string, i: nat)
    requires i < |xs|
  {
    && c.scopeKey(xs[i].scope) == key
    && forall j :: i < j < |xs| && c.scopeKey(xs[j].scope) == key ==> xs[j].id != xs[i].id
  }

  /** Observed by now, and not expired yet. */
  predicate InForce(x: Instance, now: int)
  {
    x.observedAt <= now && (x.expiresAt.Some? ==> now < x.expiresAt.value)
  }

  predicate Over(x: Instance, now: int)
  {
    x.observedAt <= now && x.expiresAt.Some? && x.expiresAt.value <= now
  }

  predicate Ahead(x: Instance, now: int) { now < x.observedAt }

  /** Some instance of the scope that is in force reports the observation in this state. */
  ghost predicate Reports(c: Catalog, xs: seq<Instance>, key: string, now: int, s: State, o: string)
  {
    exists x :: Latest(c, xs, key, x) && InForce(x, now) && x.state == s && x.observation == o
  }

  /** A partition's ids and observations are those its scope's instances call for. */
  ghost predicate ShowsScope(c: Catalog, xs: seq<Instance>, now: int, p: Partition)
  {
    && (forall id :: id in p.active <==> exists x :: Latest(c, xs, p.scope, x) && x.id == id && InForce(x, now))
    && (forall id :: id in p.stale <==> exists x :: Latest(c, xs, p.scope, x) && x.id == id && Over(x, now))
    && (forall id :: id in p.future <==> exists x :: Latest(c, xs, p.scope, x) && x.id == id && Ahead(x, now))
    && (forall o :: o in p.observed <==> Reports(c, xs, p.scope, now, Observed, o))
    && (forall o :: o in p.absent <==> Reports(c, xs, p.scope, now, Absent, o))
    && exists xs' :: InForceOnly(c, xs, p.scope, now, xs') &&
                     p.diagnoses == c.diagnose(p.observed, p.absent, xs', p.stale, p.future)
  }

  ghost predicate InForceOnly(c: Catalog, xs: seq<Instance>, key: string, now: int, xs': set<Instance>)
  {
    forall x :: x in xs' <==> Latest(c, xs, key, x) && InForce(x, now)
  }

  ghost predicate Occurs(c: Catalog, xs: seq<Instance>, key: string)
  {
    exists x :: x in xs && c.scopeKey(x.scope) == key
  }

  ghost predicate HasScope(ps: seq<Partition>, key: string)
  {
    exists i :: 0 <= i < |ps| && ps[i].scope == key
  }

  /** One partition for each scope that occurs, in strict order of the scopes, each showing its scope. */
  ghost predicate Shows(c: Catalog, xs: seq<Instance>, now: int, ps: seq<Partition>)
  {
    && (forall key :: HasScope(ps, key) <==> Occurs(c, xs, key))
    && (forall i, j :: 0 <= i < j < |ps| ==> TextLess(ps[i].scope, ps[j].scope))
    && (forall i :: 0 <= i < |ps| ==> ShowsScope(c, xs, now, ps[i]))
  }

  /** Some scope has an observation in both states at once. */
  ghost predicate Contradicts(c: Catalog, xs: seq<Instance>, now: int, key: string)
  {
    exists o :: Reports(c, xs, key, now, Observed, o) && Reports(c, xs, key, now, Absent, o)
  }

  lemma {:induction false} KeysMeans(c: Catalog, xs: seq<Instance>)
    ensures forall key :: key in KeysOf(c, xs) <==> Occurs(c, xs, key)
    ensures forall i, j :: 0 <= i < j < |KeysOf(c, xs)| ==> KeysOf(c, xs)[i] != KeysOf(c, xs)[j]
    decreases |xs|
  {
    if xs != [] {
      var ys, x := xs[..|xs| - 1], xs[|xs| - 1];
      KeysMeans(c, ys);
      assert forall y :: y in xs <==> y in ys || y == x;
      if c.scopeKey(x.scope) !in KeysOf(c, ys) { DistinctSnoc(KeysOf(c, ys), c.scopeKey(x.scope)); }
    }
  }

  lemma LatestMore(c: Catalog, xs: seq<Instance>, key: string, x: Instance)
    requires xs != []
    ensures var ys, y := xs[..|xs| - 1], xs[|xs| - 1];
            Latest(c, xs, key, x) <==>
              if c.scopeKey(y.scope) == key && y.id == x.id then x == y else Latest(c, ys, key, x)
  {
    var ys, n := xs[..|xs| - 1], |xs| - 1;
    if i :| 0 <= i < n && ys[i] == x && LatestAt(c, ys, key, i) {
      if !(c.scopeKey(xs[n].scope) == key && xs[n].id == x.id) { assert xs[i] == x && LatestAt(c, xs, key, i); }
    }
    if i :| 0 <= i < |xs| && xs[i] == x && LatestAt(c, xs, key, i) {
      if i < n { assert ys[i] == x && LatestAt(c, ys, key, i); }
    }
    if c.scopeKey(xs[n].scope) == key { assert LatestAt(c, xs, key, n); }
  }

  /** The members of a scope are its latest instances by id. */
  lemma {:induction false} MembersMeans(c: Catalog, xs: seq<Instance>, key: string)
    ensures forall x :: Latest(c, xs, key, x) <==> x.id in MembersOf(c, xs, key) && MembersOf(c, xs, key)[x.id] == x
    ensures forall id :: id in MembersOf(c, xs, key) ==> MembersOf(c, xs, key)[id].id == id
    decreases |xs|
  {
    if xs != [] {
      MembersMeans(c, xs[..|xs| - 1], key);
      hide Latest;
      forall x ensures Latest(c, xs, key, x) <==> x.id in MembersOf(c, xs, key) && MembersOf(c, xs, key)[x.id] == x {
        LatestMore(c, xs, key, x);
      }
    }
  }

  /** What a partition of these members says, id by id. */
  lemma PartitionMeans(c: Catalog, xs: seq<Instance>, key: string, m: Members, now: int)
    requires forall x :: Latest(c, xs, key, x) <==> x.id in m && m[x.id] == x
    requires forall id :: id in m ==> m[id].id == id
    ensures PartitionAt(c, key, m, now).Raised? <==> Contradicts(c, xs, now, key)
    ensures PartitionAt(c, key, m, now).Ok? ==>
              PartitionAt(c, key, m, now).value.scope == key &&
              ShowsScope(c, xs, now, PartitionAt(c, key, m, now).value)
  {
    hide Latest;
    forall s, o ensures o in Reported(m, now, s) <==> Reports(c, xs, key, now, s, o) {
      if o in Reported(m, now, s) {
        var id :| id in m && Classify(m[id], now) == Active && m[id].state == s && m[id].observation == o;
        assert Latest(c, xs, key, m[id]);
      }
    }
    hide Reports;
    hide Reported;
    assert InForceOnly(c, xs, key, now, ActiveInstances(m, now));
    hide InForceOnly;
    hide ActiveInstances;
    ClassMeans(c, xs, key, m, now);
    hide OfClass;
    if o :| o in Reported(m, now, Observed) * Reported(m, now, Absent) {
      assert Reports(c, xs, key, now, Observed, o) && Reports(c, xs, key, now, Absent, o);
    }
    if Contradicts(c, xs, now, key) {
      var o :| Reports(c, xs, key, now, Observed, o) && Reports(c, xs, key, now, Absent, o);
      assert o in Reported(m, now, Observed) * Reported(m, now, Absent);
    }
  }

  lemma ClassMeans(c: Catalog, xs: seq<Instance>, key: string, m: Members, now: int)
    requires forall x :: Latest(c, xs, key, x) <==> x.id in m && m[x.id] == x
    requires forall id :: id in m ==> m[id].id == id
    ensures forall id :: id in OfClass(m, now, Active) <==>
              exists x :: Latest(c, xs, key, x) && x.id == id && InForce(x, now)
    ensures forall id :: id in OfClass(m, now, Stale) <==>
              exists x :: Latest(c, xs, key, x) && x.id == id && Over(x, now)
    ensures forall id :: id in OfClass(m, now, Future) <==>
              exists x :: Latest(c, xs, key, x) && x.id == id && Ahead(x, now)
  {
    hide Latest;
    forall id | id in m ensures Latest(c, xs, key, m[id]) {}
  }

  lemma {:induction false} PartitionsMean(c: Catalog, xs: seq<Instance>, keys: seq<string>, now: int)
    ensures PartitionsAt(c, xs, keys, now).Raised? <==> exists key :: key in keys && Contradicts(c, xs, now, key)
    ensures PartitionsAt(c, xs, keys, now).Ok? ==>
              var ps := PartitionsAt(c, xs, keys, now).value;
              && |ps| == |keys| && (forall i :: 0 <= i < |ps| ==> ps[i].scope == keys[i])
              && forall i :: 0 <= i < |ps| ==> ShowsScope(c, xs, now, ps[i])
    decreases |keys|
  {
    hide PartitionAt;
    hide Contradicts;
    hide ShowsScope;
    hide MembersOf;
    hide Latest;
    if keys != [] {
      var rest, k := keys[..|keys| - 1], keys[|keys| - 1];
      PartitionsMean(c, xs, rest, now);
      MembersMeans(c, xs, k);
      PartitionMeans(c, xs, k, MembersOf(c, xs, k), now);
      assert forall key :: key in keys <==> key in rest || key == k;
    }
  }

  lemma {:induction false} SortedKeysMean(c: Catalog, xs: seq<Instance>, keys: seq<string>)
    requires keys == SortBy(KeysOf(c, xs), TextKey)
    ensures forall key :: key in keys <==> Occurs(c, xs, key)
    ensures forall i, j :: 0 <= i < j < |keys| ==> TextLess(keys[i], keys[j])
  {
    hide KeysOf;
    hide SortBy;
    hide Sorted;
    hide Occurs;
    KeysMeans(c, xs);
    SortBySorts(KeysOf(c, xs), TextKey);
    DistinctByCount(KeysOf(c, xs), keys);
    StrictNames(keys);
  }

  lemma ShownBy(c: Catalog, xs: seq<Instance>, now: int, keys: seq<string>, ps: seq<Partition>)
    requires forall key :: key in keys <==> Occurs(c, xs, key)
    requires forall i, j :: 0 <= i < j < |keys| ==> TextLess(keys[i], keys[j])
    requires |ps| == |keys| && forall i :: 0 <= i < |ps| ==> ps[i].scope == keys[i]
    requires forall i :: 0 <= i < |ps| ==> ShowsScope(c, xs, now, ps[i])
    ensures Shows(c, xs, now, ps)
  {
    hide Occurs;
    hide Less;
    hide ShowsScope;
    ScopesOf(ps, keys);
  }

  /** The snapshot of a document shows what its instances call for; it is refused iff some scope contradicts itself. */
  lemma {:induction false} SnapshotMeans(c: Catalog, d: Document, now: int, revision: nat)
    ensures SnapshotAt(c, d, now, revision).Raised? <==> exists key :: Contradicts(c, d.instances, now, key)
    ensures SnapshotAt(c, d, now, revision).Ok? ==>
              var s := SnapshotAt(c, d, now, revision).value;
              && s.incident == d.incident && s.asOf == now && s.revision == revision
              && Shows(c, d.instances, now, s.partitions) && IsNext(d.instances, now, s.next)
  {
    hide NextTransition;
    hide IsNext;
    hide Shows;
    hide PartitionsAt;
    hide ShowsScope;
    hide Contradicts;
    hide Occurs;
    hide KeysOf;
    hide SortBy;
    hide Less;
    var xs, keys := d.instances, SortBy(KeysOf(c, d.instances), TextKey);
    NextMeans(xs, now);
    SortedKeysMean(c, xs, keys);
    PartitionsMean(c, xs, keys, now);
    forall key | Contradicts(c, xs, now, key) ensures key in keys { ContradictionOccurs(c, xs, now, key); }
    if PartitionsAt(c, xs, keys, now).Ok? { ShownBy(c, xs, now, keys, PartitionsAt(c, xs, keys, now).value); }
  }

  lemma {:induction false} NextMeans(xs: seq<Instance>, asOf: int)
    ensures IsNext(xs, asOf, NextTransition(xs, asOf))
  {
    hide Transition;
    hide NextTransition;
    NextIsEarliest(xs, asOf);
  }

  lemma ContradictionOccurs(c: Catalog, xs: seq<Instance>, now: int, key: string)
    requires Contradicts(c, xs, now, key)
    ensures Occurs(c, xs, key)
  {
  }

  lemma ScopesOf(ps: seq<Partition>, keys: seq<string>)
    requires |ps| == |keys| && forall i :: 0 <= i < |ps| ==> ps[i].scope == keys[i]
    ensures forall key :: HasScope(ps, key) <==> key in keys
  {
    forall key | key in keys ensures HasScope(ps, key) {
      var i :| 0 <= i < |keys| && keys[i] == key;
      assert ps[i].scope == key;
    }
  }

  /** `build_diagnosis_snapshot`. */
  method Build(c: Catalog, d: Document, now: int, revision: nat) returns (r: Result<Snapshot>)
    ensures r == SnapshotAt(c, d, now, revision)
    ensures r.Raised? <==> exists key :: Contradicts(c, d.instances, now, key)
    ensures r.Ok? ==> r.value.incident == d.incident && r.value.asOf == now && r.value.revision == revision
    ensures r.Ok? ==> Shows(c, d.instances, now, r.value.partitions) && IsNext(d.instances, now, r.value.next)
  {
    SnapshotMeans(c, d, now, revision);
    hide Shows;
    hide Contradicts;
    hide PartitionAt;
    hide KeysOf;
    hide MembersOf;
    hide Sorted;
    hide SortBy;
    var keys, parts := Partitions(c, d.instances);
    SortBySorts(KeysOf(c, d.instances), TextKey);
    var ps: seq<Partition> := [];
    assert keys[..|keys|] == keys;
    for i := 0 to |keys|
      invariant PartitionsAt(c, d.instances, keys[..i], now) == Ok(ps)
    {
      assert keys[..i + 1][..i] == keys[..i];
      assert keys[i] in keys;
      match PartitionAt(c, keys[i], parts[keys[i]], now)
      case Raised =>
        RaisedPartition(c, d.instances, keys, i + 1, now);
        return Raised;
      case Ok(p) => ps := ps + [p];
    }
    var next := FindTransition(d.instances, now);
    r := Ok(Snapshot(d.incident, now, revision, next, ps));
  }

  lemma {:induction false} RaisedPartition(c: Catalog, xs: seq<Instance>, keys: seq<string>, i: nat, now: int)
    requires i <= |keys| && PartitionsAt(c, xs, keys[..i], now).Raised?
    ensures PartitionsAt(c, xs, keys, now).Raised?
    decreases |keys| - i
  {
    if i == |keys| {
      assert keys[..i] == keys;
    } else {
      assert keys[..i + 1][..i] == keys[..i];
      RaisedPartition(c, xs, keys, i + 1, now);
    }
  }

  // ----- the cache agrees with a fresh build

  lemma ClassKept(x: Instance, t: int, now: int)
    requires t <= now && !(t < x.observedAt <= now)
    requires x.expiresAt.Some? ==> !(t < x.expiresAt.value <= now)
    ensures Classify(x, now) == Classify(x, t)
  {
  }

  lemma {:induction false} MembersFrom(c: Catalog, xs: seq<Instance>, key: string)
    ensures forall id :: id in MembersOf(c, xs, key) ==> MembersOf(c, xs, key)[id] in xs
    decreases |xs|
  {
    if xs != [] { MembersFrom(c, xs[..|xs| - 1], key); }
  }

  /** No instance changes class strictly before the recorded transition. */
  lemma {:induction false} QuietUntil(xs: seq<Instance>, t: int, now: int)
    requires t <= now && (NextTransition(xs, t).Some? ==> now < NextTransition(xs, t).value)
    ensures forall x :: x in xs ==> Classify(x, now) == Classify(x, t)
  {
    NextIsEarliest(xs, t);
    forall x | x in xs ensures Classify(x, now) == Classify(x, t) {
      if t < x.observedAt <= now { assert Transition(xs, t, x.observedAt); }
      if x.expiresAt.Some? && t < x.expiresAt.value <= now { assert Transition(xs, t, x.expiresAt.value); }
      ClassKept(x, t, now);
    }
  }

  lemma PartitionKept(c: Catalog, key: string, m: Members, t: int, now: int)
    requires forall id :: id in m ==> Classify(m[id], now) == Classify(m[id], t)
    ensures PartitionAt(c, key, m, now) == PartitionAt(c, key, m, t)
  {
    forall s ensures Reported(m, now, s) == Reported(m, t, s) {}
    forall k ensures OfClass(m, now, k) == OfClass(m, t, k) {}
    assert ActiveInstances(m, now) == ActiveInstances(m, t);
  }

  lemma {:induction false} PartitionsKept(c: Catalog, xs: seq<Instance>, keys: seq<string>, t: int, now: int)
    requires forall x :: x in xs ==> Classify(x, now) == Classify(x, t)
    ensures PartitionsAt(c, xs, keys, now) == PartitionsAt(c, xs, keys, t)
    decreases |keys|
  {
    hide PartitionAt;
    if keys != [] {
      PartitionsKept(c, xs, keys[..|keys| - 1], t, now);
      var k := keys[|keys| - 1];
      MembersFrom(c, xs, k);
      PartitionKept(c, k, MembersOf(c, xs, k), t, now);
    }
  }

  /** Between a build and its next transition, building afresh gives the same partitions. */
  lemma {:induction false} FreshAgrees(c: Catalog, d: Document, t: int, now: int, revision: nat)
    requires t <= now && (NextTransition(d.instances, t).Some? ==> now < NextTransition(d.instances, t).value)
    ensures SnapshotAt(c, d, now, revision).Ok? <==> SnapshotAt(c, d, t, revision).Ok?
    ensures SnapshotAt(c, d, t, revision).Ok? ==>
            SnapshotAt(c, d, now, revision).value.partitions == SnapshotAt(c, d, t, revision).value.partitions
  {
    QuietUntil(d.instances, t, now);
    PartitionsKept(c, d.instances, SortBy(KeysOf(c, d.instances), TextKey), t, now);
  }

  class Engine {
    const catalog: Catalog
    var cached: Option<Snapshot>
    var cachedRevision: Option<nat>
    var runs: nat
    /** The document the cached snapshot was built from. */
    ghost var built: Document

    ghost predicate Valid()
      reads this
    {
      && (cached.Some? <==> cachedRevision.Some?)
      && (cached.Some? ==> SnapshotAt(catalog, built, cached.value.asOf, cachedRevision.value) == Ok(cached.value))
    }

    constructor (catalog: Catalog)
      ensures Valid() && this.catalog == catalog && cached.None? && runs == 0
    {
      this.catalog := catalog;
      cached, cachedRevision, runs := None, None, 0;
      built := Document("", []);
    }

    /** Whether `current` may answer from the cache. */
    predicate Fresh(revision: nat, now: int)
      reads this
    {
      && cached.Some? && cachedRevision == Some(revision) && now >= cached.value.asOf
      && (cached.value.next.Some? ==> now < cached.value.next.value)
    }

    method Refresh(d: Document, revision: nat, now: int) returns (r: Result<Snapshot>)
      requires Valid()
      modifies this
      ensures Valid() && r == SnapshotAt(catalog, d, now, revision)
      ensures r.Raised? <==> exists key :: Contradicts(catalog, d.instances, now, key)
      ensures r.Raised? ==> unchanged(this)
      ensures r.Ok? ==> Shows(catalog, d.instances, now, r.value.partitions) && r.value.asOf == now
      ensures r.Ok? ==>
                cached == Some(r.value) && cachedRevision == Some(revision) && built == d && runs == old(runs) + 1
    {
      hide Shows;
      hide Contradicts;
      r := Build(catalog, d, now, revision);
      if r.Ok? {
        cached, cachedRevision, runs := Some(r.value), Some(revision), runs + 1;
        built := d;
      }
    }

    /** Answers from the cache unless the revision, a clock regression or a due transition forces a rebuild. */
    method Current(d: Document, revision: nat, now: int) returns (r: Result<Snapshot>)
      requires Valid() && (cachedRevision == Some(revision) ==> built == d)
      modifies this
      ensures Valid()
      ensures old(Fresh(revision, now)) ==> unchanged(this) && r.Ok? && Some(r.value) == cached
      ensures !old(Fresh(revision, now)) ==>
                (r.Raised? ==> unchanged(this)) && (r.Ok? ==> runs == old(runs) + 1 && r.value.asOf == now)
      ensures r.Ok? <==> SnapshotAt(catalog, d, now, revision).Ok?
      ensures r.Ok? ==> r.value.partitions == SnapshotAt(catalog, d, now, revision).value.partitions
      ensures r.Raised? <==> exists key :: Contradicts(catalog, d.instances, now, key)
      ensures r.Ok? ==> Shows(catalog, d.instances, now, r.value.partitions)
      ensures r.Ok? ==> cached == Some(r.value) && cachedRevision == Some(revision) && built == d
    {
      hide Shows;
      hide Contradicts;
      SnapshotMeans(catalog, d, now, revision);
      if cached.None? || cachedRevision != Some(revision) {
        r := Refresh(d, revision, now);
        return;
      }
      var due := cached.value.next.Some? && now >= cached.value.next.value;
      if now < cached.value.asOf || due {
        r := Refresh(d, revision, now);
        return;
      }
      FreshAgrees(catalog, d, cached.value.asOf, now, revision);
      return Ok(cached.value);
    }
  }
}
