/** scripts/otlp_http_receiver.py, `EvidenceStore`: the latest observation per observation and exact scope. */
module EvidenceStore {
  import opened Prelude
  import opened Keys

  datatype Instance = Instance(id: string, observation: string, scope: Option<string>, observedAt: int, content: string)

  /** `semantic_scope_key`. */
  datatype Slot = Slot(observation: string, scope: Option<string>)

  function SlotOf(x: Instance): Slot { Slot(x.observation, x.scope) }

  /** What `_is_newer` compares: the time, then the id. */
  function Rank(x: Instance): Key { Tuple([Num(x.observedAt), Text(x.id)]) }

  predicate IsNewer(candidate: Instance, current: Instance)
  {
    if candidate.observedAt != current.observedAt then candidate.observedAt > current.observedAt
    else TextLess(current.id, candidate.id)
  }

  lemma NewerIsRank(a: Instance, b: Instance)
    ensures IsNewer(a, b) <==> Less(Rank(b), Rank(a))
  {
    var P, Q := [Num(b.observedAt), Text(b.id)], [Num(a.observedAt), Text(a.id)];
    assert P[1..] == [Text(b.id)] && Q[1..] == [Text(a.id)];
    assert [Text(b.id)][1..] == [] && [Text(a.id)][1..] == [] && !LessAll([], []);
    assert LessAll([Text(b.id)], [Text(a.id)]) <==> Less(Text(b.id), Text(a.id));
    assert LessAll(P, Q) <==> Less(P[0], Q[0]) || (P[0] == Q[0] && LessAll(P[1..], Q[1..]));
  }

  datatype Tally = Tally(inserted: nat, replaced: nat, duplicates: nat, outOfOrder: nat) {
    function Total(): nat { inserted + replaced + duplicates + outOfOrder }
  }

  datatype Stored = Stored(instances: map<Slot, Instance>, tally: Tally)

  /** One instance of a batch. */
  function Absorb(s: Stored, x: Instance): Result<Stored>
  {
    var k := SlotOf(x);
    if k !in s.instances then Ok(Stored(s.instances[k := x], s.tally.(inserted := s.tally.inserted + 1)))
    else
      var current := s.instances[k];
      if current.id == x.id then
        if current != x then Raised else Ok(s.(tally := s.tally.(duplicates := s.tally.duplicates + 1)))
      else if IsNewer(x, current) then Ok(Stored(s.instances[k := x], s.tally.(replaced := s.tally.replaced + 1)))
      else Ok(s.(tally := s.tally.(outOfOrder := s.tally.outOfOrder + 1)))
  }

  function AbsorbAll(s: Stored, batch: seq<Instance>): Result<Stored>
    decreases |batch|
  {
    if batch == [] then Ok(s)
    else match AbsorbAll(s, batch[..|batch| - 1])
      case Raised => Raised
      case Ok(t) => Absorb(t, batch[|batch| - 1])
  }

  const EMPTY := Stored(map[], Tally(0, 0, 0, 0))

  /** The evidence document: the stored instances in id order. */
  ghost predicate IsDocument(m: map<Slot, Instance>, d: seq<Instance>)
  {
    && Sorted(d, (x: Instance) => Text(x.id))
    && (forall x :: x in d <==> x in m.Values)
    && (forall i, j :: 0 <= i < j < |d| ==> d[i] != d[j])
  }

  /** `validate_runtime_references`: ids are distinct and every instance refers to known concepts. */
  predicate Acceptable(known: Instance -> bool, m: map<Slot, Instance>)
  {
    && (forall j, k :: j in m && k in m && j != k ==> m[j].id != m[k].id)
    && (forall k :: k in m ==> known(m[k]))
  }

  /** Two stored instances have one id, or one of them refers to no known concept. */
  ghost predicate Refused(known: Instance -> bool, m: map<Slot, Instance>)
  {
    || (exists j, k :: j in m && k in m && j != k && m[j].id == m[k].id)
    || (exists k :: k in m && !known(m[k]))
  }

  lemma RefusedIff(known: Instance -> bool, m: map<Slot, Instance>)
    ensures Refused(known, m) <==> !Acceptable(known, m)
  {
  }

  lemma NothingRefused(known: Instance -> bool)
    ensures !Refused(known, map[])
  {
  }

  /** `_document_from`. */
  method Document(m: map<Slot, Instance>) returns (d: seq<Instance>)
    ensures IsDocument(m, d)
  {
    d := SortedElements(m.Values, (x: Instance) => Text(x.id));
  }

  class Store {
    const known: Instance -> bool
    const persistent: bool
    var instances: map<Slot, Instance>
    var matched: nat
    var accepted: nat
    var tally: Tally
    var snapshot: Option<seq<Instance>>
    /** Everything taken in by batches that did not raise, in order. */
    ghost var received: seq<Instance>

    ghost predicate Valid()
      reads this
    {
      && AbsorbAll(EMPTY, received) == Ok(Stored(instances, tally))
      && matched == |received| && tally.Total() == matched && tally.inserted == |instances|
      && (persistent && instances != map[] ==> snapshot.Some? && IsDocument(instances, snapshot.value))
    }

    constructor (known: Instance -> bool, persistent: bool)
      ensures Valid() && this.known == known && this.persistent == persistent && received == []
    {
      this.known, this.persistent := known, persistent;
      instances, matched, accepted, tally, snapshot, received := map[], 0, 0, EMPTY.tally, None, [];
    }

    /** `ingest`. */
    method Ingest(batch: seq<Instance>) returns (r: Result<()>)
      requires Valid()
      modifies this
      ensures Valid()
      ensures r.Raised? ==> unchanged(this)
      ensures r.Ok? ==> received == old(received) + batch && accepted == old(accepted) + 1
      ensures !persistent ==> snapshot == old(snapshot)
      ensures r.Raised? <==>
              var s := AbsorbAll(Stored(old(instances), old(tally)), batch);
              s.Raised? || Refused(known, s.value.instances)
    {
      hide IsDocument;
      hide Absorb;
      hide Acceptable;
      hide Refused;
      var s := Stored(instances, tally);
      assert batch[..|batch|] == batch;
      for i := 0 to |batch|
        invariant AbsorbAll(Stored(instances, tally), batch[..i]) == Ok(s)
      {
        assert batch[..i + 1][..i] == batch[..i];
        match Absorb(s, batch[i])
        case Raised =>
          RaisedEarly(Stored(instances, tally), batch, i + 1);
          return Raised;
        case Ok(t) => s := t;
      }
      Counts(Stored(instances, tally), batch);
      Joined(EMPTY, received, batch);
      NothingRefused(known);
      if s.instances != map[] {
        RefusedIff(known, s.instances);
        if !Acceptable(known, s.instances) { return Raised; }
        if s.tally.inserted > tally.inserted || s.tally.replaced > tally.replaced {
          if persistent {
            var d := Document(s.instances);
            snapshot := Some(d);
          }
        }
      }
      instances, tally, matched, accepted := s.instances, s.tally, matched + |batch|, accepted + 1;
      received := received + batch;
      return Ok(());
    }
  }

  lemma {:induction false} RaisedEarly(s: Stored, batch: seq<Instance>, i: nat)
    requires i <= |batch| && AbsorbAll(s, batch[..i]).Raised?
    ensures AbsorbAll(s, batch).Raised?
    decreases |batch| - i
  {
    if i == |batch| {
      assert batch[..i] == batch;
    } else {
      assert batch[..i + 1][..i] == batch[..i];
      RaisedEarly(s, batch, i + 1);
    }
  }

  /** Each instance is counted once, and only inserted or replaced ones change the map. */
  lemma {:induction false} Counts(s: Stored, batch: seq<Instance>)
    requires AbsorbAll(s, batch).Ok?
    ensures var t := AbsorbAll(s, batch).value;
            && t.tally.Total() == s.tally.Total() + |batch|
            && t.tally.inserted - s.tally.inserted == |t.instances| - |s.instances|
            && t.tally.inserted >= s.tally.inserted && t.tally.replaced >= s.tally.replaced
            && (t.tally.inserted == s.tally.inserted && t.tally.replaced == s.tally.replaced ==>
                t.instances == s.instances)
    decreases |batch|
  {
    if batch != [] { Counts(s, batch[..|batch| - 1]); }
  }

  /** Batching does not matter. */
  lemma {:induction false} Joined(s: Stored, a: seq<Instance>, b: seq<Instance>)
    requires AbsorbAll(s, a).Ok?
    ensures AbsorbAll(s, a + b) == AbsorbAll(AbsorbAll(s, a).value, b)
    decreases |b|
  {
    if b == [] {
      assert a + b == a;
    } else {
      assert (a + b)[..|a + b| - 1] == a + b[..|b| - 1];
      Joined(s, a, b[..|b| - 1]);
    }
  }

  // ----- the stored map is the latest of everything received

  /** The same id always means the same content. */
  ghost predicate Consistent(xs: seq<Instance>)
  {
    forall x, y :: x in xs && y in xs && x.id == y.id ==> x == y
  }

  /** x is the maximum by time and id of what xs has for its slot. */
  ghost predicate Latest(xs: seq<Instance>, x: Instance)
  {
    x in xs && forall y :: y in xs && SlotOf(y) == SlotOf(x) ==> Leq(Rank(y), Rank(x))
  }

  lemma {:induction false} StoresLatest(xs: seq<Instance>)
    requires Consistent(xs)
    ensures AbsorbAll(EMPTY, xs).Ok?
    ensures var m := AbsorbAll(EMPTY, xs).value.instances;
            && (forall k :: k in m ==> SlotOf(m[k]) == k && Latest(xs, m[k]))
            && (forall x :: x in xs ==> SlotOf(x) in m)
    decreases |xs|
  {
    hide Less;
    if xs != [] {
      var ys, x := xs[..|xs| - 1], xs[|xs| - 1];
      assert xs == ys + [x];
      StoresLatest(ys);
      var m := AbsorbAll(EMPTY, ys).value.instances;
      var k := SlotOf(x);
      if k in m { NewerIsRank(x, m[k]); Total(Rank(x), Rank(m[k])); }
      var n := AbsorbAll(EMPTY, xs).value.instances;
      forall j | j in n ensures SlotOf(n[j]) == j && Latest(xs, n[j]) {
        if j == k && k in m && n[j] == x {
          forall y | y in xs && SlotOf(y) == k ensures Leq(Rank(y), Rank(x)) {
            if y in ys { LeqTransitive(Rank(y), Rank(m[k]), Rank(x)); }
          }
        }
      }
    }
  }

  lemma RankPins(x: Instance, y: Instance)
    requires Rank(x) == Rank(y)
    ensures x.id == y.id
  {
    assert Rank(x).parts[1] == Rank(y).parts[1];
  }

  /** Arrival order, batching and replay do not matter: the map depends only on the set of instances received. */
  lemma {:induction false} ArrivalIrrelevant(xs: seq<Instance>, ys: seq<Instance>)
    requires Consistent(xs) && forall x :: x in xs <==> x in ys
    ensures AbsorbAll(EMPTY, xs).Ok? && AbsorbAll(EMPTY, ys).Ok?
    ensures AbsorbAll(EMPTY, xs).value.instances == AbsorbAll(EMPTY, ys).value.instances
  {
    StoresLatest(xs);
    StoresLatest(ys);
    var m, n := AbsorbAll(EMPTY, xs).value.instances, AbsorbAll(EMPTY, ys).value.instances;
    forall k ensures k in m <==> k in n {
      if k in m { assert m[k] in ys; }
      if k in n { assert n[k] in xs; }
    }
    forall k | k in m ensures m[k] == n[k] {
      assert Leq(Rank(m[k]), Rank(n[k])) && Leq(Rank(n[k]), Rank(m[k]));
      LeqAntisymmetric(Rank(m[k]), Rank(n[k]));
      RankPins(m[k], n[k]);
    }
  }

  /** A replayed prefix of what was received changes nothing. */
  lemma {:induction false} ReplayIrrelevant(xs: seq<Instance>, again: seq<Instance>)
    requires Consistent(xs) && forall x :: x in again ==> x in xs
    ensures AbsorbAll(EMPTY, xs).Ok? && AbsorbAll(EMPTY, xs + again).Ok?
    ensures AbsorbAll(EMPTY, xs + again).value.instances == AbsorbAll(EMPTY, xs).value.instances
  {
    ArrivalIrrelevant(xs, xs + again);
  }

  /** The document of a stored map with distinct ids is unique, so the snapshot file is determined by the map. */
  lemma DocumentUnique(known: Instance -> bool, m: map<Slot, Instance>, d: seq<Instance>, e: seq<Instance>)
    requires IsDocument(m, d) && IsDocument(m, e) && Acceptable(known, m)
    ensures d == e
  {
    var key := (x: Instance) => Text(x.id);
    SameMultiset(d, e);
    SortedUnique(d, e, key);
  }

  lemma SameMultiset<T>(d: seq<T>, e: seq<T>)
    requires forall x :: x in d <==> x in e
    requires forall i, j :: 0 <= i < j < |d| ==> d[i] != d[j]
    requires forall i, j :: 0 <= i < j < |e| ==> e[i] != e[j]
    ensures multiset(d) == multiset(e)
  {
    forall x ensures multiset(d)[x] == multiset(e)[x] {
      SingleCount(d, x);
      SingleCount(e, x);
      assert x in multiset(d) <==> x in d;
      assert x in multiset(e) <==> x in e;
    }
  }

  // ----- what becomes of each instance

  /** a takes the place of b in their slot: observed later, or at the same time and with the greater id. */
  predicate Supersedes(a: Instance, b: Instance)
  {
    a.observedAt > b.observedAt || (a.observedAt == b.observedAt && TextLess(b.id, a.id))
  }

  predicate SameSlot(a: Instance, b: Instance)
  {
    a.observation == b.observation && a.scope == b.scope
  }

  /** Of the first i received, the slot of the j-th holds that one. */
  ghost predicate Holds(xs: seq<Instance>, i: nat, j: nat)
  {
    && j < i <= |xs|
    && forall k :: 0 <= k < i && SameSlot(xs[k], xs[j]) ==> xs[k] == xs[j] || Supersedes(xs[j], xs[k])
  }

  /** When the i-th arrives, its slot holds an instance with its id and other content. */
  ghost predicate Clashes(xs: seq<Instance>, i: nat)
  {
    i < |xs| && exists j: nat :: Holds(xs, i, j) && SameSlot(xs[j], xs[i]) && xs[j].id == xs[i].id && xs[j] != xs[i]
  }

  lemma SupersedesTransitive(a: Instance, b: Instance, c: Instance)
    requires Supersedes(a, b) && Supersedes(b, c)
    ensures Supersedes(a, c)
  {
    if a.observedAt == b.observedAt == c.observedAt { TextTransitive(c.id, b.id, a.id); }
  }

  lemma HoldsKept(xs: seq<Instance>, j: nat)
    requires xs != [] && Holds(xs[..|xs| - 1], |xs| - 1, j)
    requires var x := xs[|xs| - 1]; !SameSlot(x, xs[j]) || x == xs[j] || Supersedes(xs[j], x)
    ensures Holds(xs, |xs|, j)
  {
    hide Supersedes;
    hide SameSlot;
    assert forall k :: 0 <= k < |xs| - 1 ==> xs[..|xs| - 1][k] == xs[k];
  }

  lemma HoldsNew(xs: seq<Instance>, j: nat)
    requires xs != [] && Holds(xs[..|xs| - 1], |xs| - 1, j)
    requires SameSlot(xs[|xs| - 1], xs[j]) && Supersedes(xs[|xs| - 1], xs[j])
    ensures Holds(xs, |xs|, |xs| - 1)
  {
    var x := xs[|xs| - 1];
    forall k | 0 <= k < |xs| && SameSlot(xs[k], x) ensures xs[k] == x || Supersedes(x, xs[k]) {
      if k < |xs| - 1 && xs[k] != xs[j] {
        assert xs[..|xs| - 1][k] == xs[k] && SameSlot(xs[k], xs[j]);
        SupersedesTransitive(x, xs[j], xs[k]);
      }
    }
  }

  lemma HoldsOne(xs: seq<Instance>, i: nat, j: nat, k: nat)
    requires Holds(xs, i, j) && Holds(xs, i, k) && SameSlot(xs[j], xs[k])
    ensures xs[j] == xs[k]
  {
    if xs[j] != xs[k] {
      assert SameSlot(xs[k], xs[j]);
      SupersedesTransitive(xs[j], xs[k], xs[j]);
      TextIrreflexive(xs[j].id);
    }
  }

  ghost predicate HeldAs(xs: seq<Instance>, j: nat, s: Slot, x: Instance)
  {
    Holds(xs, |xs|, j) && xs[j] == x && SlotOf(x) == s
  }

  lemma HoldsIndex(xs: seq<Instance>, i: nat, j: nat)
    requires Holds(xs, i, j)
    ensures j < i
  {
  }

  lemma ClashesIndex(xs: seq<Instance>, i: nat)
    requires Clashes(xs, i)
    ensures i < |xs|
  {
  }

  lemma HeldNew(xs: seq<Instance>)
    requires xs != [] && forall k :: 0 <= k < |xs| - 1 ==> SlotOf(xs[k]) != SlotOf(xs[|xs| - 1])
    ensures HeldAs(xs, |xs| - 1, SlotOf(xs[|xs| - 1]), xs[|xs| - 1])
  {
  }

  /** After any sequence that did not raise, each slot holds what the definition says, and no slot is missing. */
  lemma {:induction false} SlotsHold(xs: seq<Instance>)
    requires AbsorbAll(EMPTY, xs).Ok?
    ensures var m := AbsorbAll(EMPTY, xs).value.instances;
            && (forall k :: 0 <= k < |xs| ==> SlotOf(xs[k]) in m)
            && (forall s :: s in m ==> exists j: nat :: HeldAs(xs, j, s, m[s]))
    decreases |xs|
  {
    hide Holds;
    hide Supersedes;
    if xs != [] {
      var ys, x := xs[..|xs| - 1], xs[|xs| - 1];
      SlotsHold(ys);
      var m, n := AbsorbAll(EMPTY, ys).value.instances, AbsorbAll(EMPTY, xs).value.instances;
      assert forall k :: 0 <= k < |ys| ==> xs[k] == ys[k];
      forall s | s in n ensures exists j: nat :: HeldAs(xs, j, s, n[s]) {
        if s in m {
          var j: nat :| HeldAs(ys, j, s, m[s]);
          HoldsIndex(ys, |ys|, j);
          SlotKept(xs, j, AbsorbAll(EMPTY, ys).value, s);
        } else {
          HeldNew(xs);
        }
      }
    }
  }

  /** One arrival leaves what its slot held, or takes its place. */
  lemma SlotKept(xs: seq<Instance>, j: nat, t: Stored, s: Slot)
    requires xs != [] && s in t.instances && HeldAs(xs[..|xs| - 1], j, s, t.instances[s])
    requires Absorb(t, xs[|xs| - 1]).Ok?
    ensures var n := Absorb(t, xs[|xs| - 1]).value.instances;
            s in n && (HeldAs(xs, j, s, n[s]) || HeldAs(xs, |xs| - 1, s, n[s]))
  {
    var x := xs[|xs| - 1];
    assert j < |xs| - 1 && xs[j] == xs[..|xs| - 1][j] == t.instances[s];
    hide Holds;
    if SlotOf(x) == s && x.id != xs[j].id && IsNewer(x, xs[j]) {
      HoldsNew(xs, j);
    } else {
      if x.id != xs[j].id { TextTotal(x.id, xs[j].id); }
      HoldsKept(xs, j);
    }
  }

  lemma HoldsBefore(xs: seq<Instance>, i: nat, j: nat)
    requires xs != [] && i < |xs|
    ensures Holds(xs, i, j) <==> Holds(xs[..|xs| - 1], i, j)
  {
    hide Supersedes;
    hide SameSlot;
    assert forall k :: 0 <= k < |xs| - 1 ==> xs[..|xs| - 1][k] == xs[k];
  }

  lemma ClashesBefore(xs: seq<Instance>, i: nat)
    requires xs != [] && i < |xs| - 1
    ensures Clashes(xs, i) <==> Clashes(xs[..|xs| - 1], i)
  {
    hide Holds;
    hide SameSlot;
    var ys := xs[..|xs| - 1];
    forall j: nat ensures Holds(xs, i, j) <==> Holds(ys, i, j) { HoldsBefore(xs, i, j); }
    forall j: nat | Holds(ys, i, j) ensures j < i { HoldsIndex(ys, i, j); }
  }

  /** What arrives raises exactly when its slot holds an instance with its id and other content. */
  lemma {:induction false} RaisesIff(xs: seq<Instance>)
    ensures AbsorbAll(EMPTY, xs).Raised? <==> exists i: nat :: Clashes(xs, i)
    decreases |xs|
  {
    hide Clashes;
    if xs == [] {
      forall i: nat | Clashes(xs, i) ensures i < |xs| { ClashesIndex(xs, i); }
    } else {
      var ys := xs[..|xs| - 1];
      RaisesIff(ys);
      forall i | 0 <= i < |ys| ensures Clashes(xs, i) <==> Clashes(ys, i) { ClashesBefore(xs, i); }
      forall i: nat | Clashes(ys, i) ensures i < |ys| { ClashesIndex(ys, i); }
      forall i: nat | Clashes(xs, i) ensures i <= |ys| { ClashesIndex(xs, i); }
      if AbsorbAll(EMPTY, ys).Ok? { LastClashes(xs); }
    }
  }

  lemma {:induction false} LastClashes(xs: seq<Instance>)
    requires xs != [] && AbsorbAll(EMPTY, xs[..|xs| - 1]).Ok?
    ensures Absorb(AbsorbAll(EMPTY, xs[..|xs| - 1]).value, xs[|xs| - 1]).Raised? <==> Clashes(xs, |xs| - 1)
  {
    var ys, x := xs[..|xs| - 1], xs[|xs| - 1];
    SlotsHold(ys);
    var t := AbsorbAll(EMPTY, ys).value;
    hide AbsorbAll;
    assert Absorb(t, x).Raised? <==>
           SlotOf(x) in t.instances && t.instances[SlotOf(x)].id == x.id && t.instances[SlotOf(x)] != x;
    hide Absorb;
    if SlotOf(x) in t.instances {
      var h: nat :| HeldAs(ys, h, SlotOf(x), t.instances[SlotOf(x)]);
      HeldAlone(xs, t.instances[SlotOf(x)], h);
    } else {
      assert forall j: nat :: Holds(xs, |ys|, j) ==> xs[j] == ys[j];
    }
  }

  /** What is held in the last one's slot before it arrives. */
  lemma HeldAlone(xs: seq<Instance>, held: Instance, h: nat)
    requires xs != [] && HeldAs(xs[..|xs| - 1], h, SlotOf(xs[|xs| - 1]), held)
    ensures Holds(xs, |xs| - 1, h) && xs[h] == held && SameSlot(xs[h], xs[|xs| - 1])
    ensures forall j: nat :: Holds(xs, |xs| - 1, j) && SameSlot(xs[j], xs[|xs| - 1]) ==> xs[j] == held
  {
    hide Supersedes;
    var n := |xs| - 1;
    HoldsBefore(xs, n, h);
    assert h < n && xs[h] == xs[..n][h];
    forall j: nat | Holds(xs, n, j) && SameSlot(xs[j], xs[n]) ensures xs[j] == held {
      HoldsOne(xs, n, j, h);
    }
  }

  /**
    An arrival counts as new to its slot, as a replay of what the slot holds, as its
    successor, or as too late.
   */
  ghost function CountLast(xs: seq<Instance>, t: Tally): Tally
    requires xs != []
  {
    var n := |xs| - 1;
    if forall k :: 0 <= k < n ==> !SameSlot(xs[k], xs[n]) then t.(inserted := t.inserted + 1)
    else if exists j: nat :: Holds(xs, n, j) && xs[j] == xs[n] then t.(duplicates := t.duplicates + 1)
    else if forall k :: 0 <= k < n && SameSlot(xs[k], xs[n]) ==> Supersedes(xs[n], xs[k])
      then t.(replaced := t.replaced + 1)
    else t.(outOfOrder := t.outOfOrder + 1)
  }

  lemma {:induction false} Counted(xs: seq<Instance>)
    requires xs != [] && AbsorbAll(EMPTY, xs).Ok?
    ensures AbsorbAll(EMPTY, xs).value.tally == CountLast(xs, AbsorbAll(EMPTY, xs[..|xs| - 1]).value.tally)
  {
    var n := |xs| - 1;
    var t := AbsorbAll(EMPTY, xs[..n]).value;
    assert AbsorbAll(EMPTY, xs) == Absorb(t, xs[n]);
    SlotsHold(xs[..n]);
    hide AbsorbAll;
    hide CountLast;
    hide HeldAs;
    hide Absorb;
    if SlotOf(xs[n]) in t.instances {
      var h: nat :| HeldAs(xs[..n], h, SlotOf(xs[n]), t.instances[SlotOf(xs[n])]);
      CountedAgain(xs, t, h);
    } else {
      forall k | 0 <= k < n ensures SlotOf(xs[k]) != SlotOf(xs[n]) { assert xs[k] == xs[..n][k]; }
      CountedNew(xs, t);
    }
  }

  lemma CountedNew(xs: seq<Instance>, t: Stored)
    requires xs != [] && SlotOf(xs[|xs| - 1]) !in t.instances
    requires forall k :: 0 <= k < |xs| - 1 ==> SlotOf(xs[k]) != SlotOf(xs[|xs| - 1])
    ensures Absorb(t, xs[|xs| - 1]).Ok? && Absorb(t, xs[|xs| - 1]).value.tally == CountLast(xs, t.tally)
  {
    hide Holds;
    hide Supersedes;
  }

  lemma CountedAgain(xs: seq<Instance>, t: Stored, h: nat)
    requires xs != [] && SlotOf(xs[|xs| - 1]) in t.instances && Absorb(t, xs[|xs| - 1]).Ok?
    requires HeldAs(xs[..|xs| - 1], h, SlotOf(xs[|xs| - 1]), t.instances[SlotOf(xs[|xs| - 1])])
    ensures Absorb(t, xs[|xs| - 1]).value.tally == CountLast(xs, t.tally)
  {
    var n := |xs| - 1;
    var held := t.instances[SlotOf(xs[n])];
    HeldAlone(xs, held, h);
    HeldDecides(xs, h);
    assert h < n;
    hide Holds;
    hide IsNewer;
    hide Supersedes;
    assert held.id == xs[n].id ==> held == xs[n];
    assert (exists j: nat :: Holds(xs, n, j) && xs[j] == xs[n]) <==> held == xs[n];
  }

  /** The arrival supersedes all of its slot exactly when it supersedes what the slot holds. */
  lemma HeldDecides(xs: seq<Instance>, h: nat)
    requires xs != [] && Holds(xs, |xs| - 1, h) && SameSlot(xs[h], xs[|xs| - 1])
    ensures var x := xs[|xs| - 1];
            (forall k :: 0 <= k < |xs| - 1 && SameSlot(xs[k], x) ==> Supersedes(x, xs[k])) <==> IsNewer(x, xs[h])
  {
    var x := xs[|xs| - 1];
    if Supersedes(x, xs[h]) {
      forall k | 0 <= k < |xs| - 1 && SameSlot(xs[k], x) ensures Supersedes(x, xs[k]) {
        if xs[k] != xs[h] { SupersedesTransitive(x, xs[h], xs[k]); }
      }
    }
  }
}
