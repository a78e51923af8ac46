/**
  Sort keys: integers, strings and tuples of keys, compared as the source's
  language compares them (numerically, by code point, lexicographically), and a
  stable sort by key.
 */
module Keys {

  datatype Key = Num(n: int) | Text(s: string) | Tuple(parts: seq<Key>)

  predicate TextLess(a: string, b: string)
  {
    b != [] && (a == [] || a[0] < b[0] || (a[0] == b[0] && TextLess(a[1..], b[1..])))
  }

  predicate Less(a: Key, b: Key)
    decreases a
  {
    match (a, b)
    case (Num(m), Num(n)) => m < n
    case (Text(s), Text(t)) => TextLess(s, t)
    case (Tuple(p), Tuple(q)) => LessAll(p, q)
    case (Num(_), _) => true
    case (Text(_), Tuple(_)) => true
    case _ => false
  }

  predicate LessAll(p: seq<Key>, q: seq<Key>)
    decreases p
  {
    q != [] && (p == [] || Less(p[0], q[0]) || (p[0] == q[0] && LessAll(p[1..], q[1..])))
  }

  predicate Leq(a: Key, b: Key)
  {
    a == b || Less(a, b)
  }

  // ----- the order is strict and total

  lemma {:induction false} TextIrreflexive(a: string)
    ensures !TextLess(a, a)
  {
    if a != [] { TextIrreflexive(a[1..]); }
  }

  lemma {:induction false} TextTransitive(a: string, b: string, c: string)
    requires TextLess(a, b) && TextLess(b, c)
    ensures TextLess(a, c)
  {
    if a != [] && a[0] == b[0] == c[0] { TextTransitive(a[1..], b[1..], c[1..]); }
  }

  lemma {:induction false} TextTotal(a: string, b: string)
    ensures TextLess(a, b) || a == b || TextLess(b, a)
  {
    if a != [] && b != [] && a[0] == b[0] {
      TextTotal(a[1..], b[1..]);
      assert a == [a[0]] + a[1..] && b == [b[0]] + b[1..];
    }
  }

  lemma {:induction false} Irreflexive(a: Key)
    ensures !Less(a, a)
    decreases a
  {
    match a
    case Num(_) =>
    case Text(s) => TextIrreflexive(s);
    case Tuple(p) => IrreflexiveAll(p);
  }

  lemma {:induction false} IrreflexiveAll(p: seq<Key>)
    ensures !LessAll(p, p)
    decreases p
  {
    if p != [] {
      Irreflexive(p[0]);
      IrreflexiveAll(p[1..]);
    }
  }

  lemma {:induction false} Transitive(a: Key, b: Key, c: Key)
    requires Less(a, b) && Less(b, c)
    ensures Less(a, c)
    decreases a
  {
    match (a, b, c)
    case (Text(s), Text(t), Text(u)) => TextTransitive(s, t, u);
    case (Tuple(p), Tuple(q), Tuple(r)) => TransitiveAll(p, q, r);
    case _ =>
  }

  lemma {:induction false} TransitiveAll(p: seq<Key>, q: seq<Key>, r: seq<Key>)
    requires LessAll(p, q) && LessAll(q, r)
    ensures LessAll(p, r)
    decreases p
  {
    if p != [] {
      if Less(p[0], q[0]) && Less(q[0], r[0]) {
        Transitive(p[0], q[0], r[0]);
      } else if p[0] == q[0] == r[0] && LessAll(p[1..], q[1..]) && LessAll(q[1..], r[1..]) {
        TransitiveAll(p[1..], q[1..], r[1..]);
      }
    }
  }

  lemma {:induction false} Total(a: Key, b: Key)
    ensures Less(a, b) || a == b || Less(b, a)
    decreases a
  {
    match (a, b)
    case (Text(s), Text(t)) => TextTotal(s, t);
    case (Tuple(p), Tuple(q)) => TotalAll(p, q);
    case _ =>
  }

  lemma {:induction false} TotalAll(p: seq<Key>, q: seq<Key>)
    ensures LessAll(p, q) || p == q || LessAll(q, p)
    decreases p
  {
    if p != [] && q != [] {
      Total(p[0], q[0]);
      if p[0] == q[0] {
        TotalAll(p[1..], q[1..]);
        assert p == [p[0]] + p[1..] && q == [q[0]] + q[1..];
      }
    }
  }

  lemma {:induction false} LeqTransitive(a: Key, b: Key, c: Key)
    requires Leq(a, b) && Leq(b, c)
    ensures Leq(a, c)
    ensures Less(a, b) || Less(b, c) ==> Less(a, c)
  {
    if Less(a, b) && Less(b, c) { Transitive(a, b, c); }
  }

  lemma LeqAntisymmetric(a: Key, b: Key)
    requires Leq(a, b) && Leq(b, a)
    ensures a == b
  {
    if Less(a, b) && Less(b, a) {
      Transitive(a, b, a);
      Irreflexive(a);
    }
  }

  // ----- what the order means

  /** Two strings compare by the first character in which they differ, and a proper prefix comes first. */
  lemma {:induction false} TextLessMeans(a: string, b: string)
    ensures TextLess(a, b) <==>
            || (|a| < |b| && a == b[..|a|])
            || exists k :: 0 <= k < |a| && k < |b| && a[..k] == b[..k] && a[k] < b[k]
  {
    if a == [] || b == [] {
    } else {
      TextLessMeans(a[1..], b[1..]);
      assert a == [a[0]] + a[1..] && b == [b[0]] + b[1..];
      if TextLess(a, b) && a[0] == b[0] {
        if |a[1..]| < |b[1..]| && a[1..] == b[1..][..|a| - 1] {
          assert b[..|a|] == [b[0]] + b[1..][..|a| - 1];
        } else {
          var k :| 0 <= k < |a[1..]| && k < |b[1..]| && a[1..][..k] == b[1..][..k] && a[1..][k] < b[1..][k];
          assert a[..k + 1] == [a[0]] + a[1..][..k] && b[..k + 1] == [b[0]] + b[1..][..k];
        }
      }
      if TextLess(a, b) && a[0] < b[0] { assert a[..0] == b[..0]; }
      if |a| < |b| && a == b[..|a|] { assert a[1..] == b[1..][..|a| - 1] && a[0] == b[0]; }
      if k :| 0 <= k < |a| && k < |b| && a[..k] == b[..k] && a[k] < b[k] {
        if k > 0 {
          assert a[0] == a[..k][0] == b[..k][0] == b[0];
          assert a[1..][..k - 1] == a[..k][1..] == b[..k][1..] == b[1..][..k - 1];
          assert a[1..][k - 1] < b[1..][k - 1];
        }
      }
    }
  }

  /** Tuples of one length compare by the first part in which they differ. */
  lemma {:induction false} FirstDifference(p: seq<Key>, q: seq<Key>)
    requires |p| == |q|
    ensures LessAll(p, q) <==>
            exists k :: 0 <= k < |p| && Less(p[k], q[k]) && forall l :: 0 <= l < k ==> p[l] == q[l]
    decreases |p|
  {
    hide Less;
    if p != [] {
      FirstDifference(p[1..], q[1..]);
      assert forall l :: 0 <= l < |p| - 1 ==> p[1..][l] == p[l + 1] && q[1..][l] == q[l + 1];
      if LessAll(p, q) && !Less(p[0], q[0]) {
        var k :| 0 <= k < |p[1..]| && Less(p[1..][k], q[1..][k]) && forall l :: 0 <= l < k ==> p[1..][l] == q[1..][l];
        forall l | 0 <= l < k + 1 ensures p[l] == q[l] {
          if l > 0 { assert p[l] == p[1..][l - 1] == q[1..][l - 1] == q[l]; }
        }
        assert Less(p[k + 1], q[k + 1]);
      }
      if k :| 0 <= k < |p| && Less(p[k], q[k]) && forall l :: 0 <= l < k ==> p[l] == q[l] {
        if k > 0 { assert Less(p[1..][k - 1], q[1..][k - 1]); }
      }
    }
  }

  // ----- sorting by key

  ghost predicate Sorted<T>(xs: seq<T>, key: T -> Key)
  {
    forall i, j :: 0 <= i < j < |xs| ==> Leq(key(xs[i]), key(xs[j]))
  }

  /** The key tells apart the elements of xs. */
  ghost predicate Separates<T>(key: T -> Key, xs: seq<T>)
  {
    forall x, y :: x in xs && y in xs && key(x) == key(y) ==> x == y
  }

  function Insert<T>(x: T, xs: seq<T>, key: T -> Key): (r: seq<T>)
  {
    if xs == [] || Leq(key(x), key(xs[0])) then [x] + xs else [xs[0]] + Insert(x, xs[1..], key)
  }

  /** The stable sort `sorted(xs, key=key)`. */
  function SortBy<T>(xs: seq<T>, key: T -> Key): (r: seq<T>)
  {
    if xs == [] then [] else Insert(xs[0], SortBy(xs[1..], key), key)
  }

  lemma {:induction false} InsertKeeps<T>(x: T, xs: seq<T>, key: T -> Key)
    requires Sorted(xs, key)
    ensures Sorted(Insert(x, xs, key), key)
    ensures multiset(Insert(x, xs, key)) == multiset(xs) + multiset{x}
  {
    hide Less;
    var r := Insert(x, xs, key);
    if xs == [] {
    } else if Leq(key(x), key(xs[0])) {
      forall j | 0 < j < |r| ensures Leq(key(r[0]), key(r[j])) {
        LeqTransitive(key(x), key(xs[0]), key(xs[j - 1]));
      }
    } else {
      Total(key(x), key(xs[0]));
      var rest := Insert(x, xs[1..], key);
      InsertKeeps(x, xs[1..], key);
      assert xs == [xs[0]] + xs[1..];
      forall j | 0 <= j < |rest| ensures Leq(key(xs[0]), key(rest[j])) {
        assert rest[j] in multiset(rest);
        assert rest[j] == x || rest[j] in xs[1..];
      }
    }
  }

  lemma {:induction false} SortBySorts<T>(xs: seq<T>, key: T -> Key)
    ensures Sorted(SortBy(xs, key), key)
    ensures multiset(SortBy(xs, key)) == multiset(xs)
    ensures |SortBy(xs, key)| == |xs|
    ensures forall x :: x in SortBy(xs, key) <==> x in xs
  {
    hide Less;
    hide Insert;
    if xs != [] {
      SortBySorts(xs[1..], key);
      InsertKeeps(xs[0], SortBy(xs[1..], key), key);
      assert xs == [xs[0]] + xs[1..];
    }
    assert |SortBy(xs, key)| == |multiset(SortBy(xs, key))| == |xs|;
    forall x ensures x in SortBy(xs, key) <==> x in xs {
      assert x in SortBy(xs, key) <==> x in multiset(SortBy(xs, key));
      assert x in xs <==> x in multiset(xs);
    }
  }

  lemma TailMultiset<T>(xs: seq<T>)
    requires xs != []
    ensures multiset(xs[1..]) == multiset(xs) - multiset{xs[0]}
  {
    assert xs == [xs[0]] + xs[1..];
  }

  lemma SameHead<T>(xs: seq<T>, ys: seq<T>, key: T -> Key)
    requires xs != [] && ys != [] && Sorted(xs, key) && Sorted(ys, key) && Separates(key, xs)
    requires ys[0] in xs && xs[0] in ys
    ensures xs[0] == ys[0]
  {
    hide Less;
    var i :| 0 <= i < |xs| && xs[i] == ys[0];
    var j :| 0 <= j < |ys| && ys[j] == xs[0];
    assert Leq(key(xs[0]), key(ys[0])) && Leq(key(ys[0]), key(xs[0]));
    LeqAntisymmetric(key(xs[0]), key(ys[0]));
    assert xs[0] in xs;
  }

  lemma MultisetMember<T>(xs: seq<T>, ys: seq<T>, x: T)
    requires multiset(xs) == multiset(ys) && x in xs
    ensures x in ys
  {
    assert x in multiset(xs);
  }

  /** A sorted list is determined by its elements when the key tells them apart. */
  lemma {:induction false} SortedUnique<T>(xs: seq<T>, ys: seq<T>, key: T -> Key)
    requires Sorted(xs, key) && Sorted(ys, key) && multiset(xs) == multiset(ys)
    requires Separates(key, xs)
    ensures xs == ys
  {
    hide Leq;
    assert |xs| == |multiset(xs)| && |ys| == |multiset(ys)|;
    if xs != [] {
      MultisetMember(xs, ys, xs[0]);
      MultisetMember(ys, xs, ys[0]);
      SameHead(xs, ys, key);
      TailMultiset(xs);
      TailMultiset(ys);
      SortedUnique(xs[1..], ys[1..], key);
      assert xs == [xs[0]] + xs[1..] && ys == [ys[0]] + ys[1..];
    }
  }

  function TextKey(s: string): Key
  {
    Text(s)
  }

  lemma DistinctSnoc<T>(xs: seq<T>, x: T)
    requires x !in xs && forall i, j :: 0 <= i < j < |xs| ==> xs[i] != xs[j]
    ensures var ys := xs + [x]; forall i, j :: 0 <= i < j < |ys| ==> ys[i] != ys[j]
  {
    var ys := xs + [x];
    forall i, j | 0 <= i < j < |ys| ensures ys[i] != ys[j] {
      if j == |xs| { assert xs[i] in xs; }
    }
  }

  lemma {:induction false} CountDistinct<T>(xs: seq<T>, s: set<T>)
    requires forall x :: x in xs <==> x in s
    requires forall i, j :: 0 <= i < j < |xs| ==> xs[i] != xs[j]
    ensures |xs| == |s|
  {
    if xs == [] {
      assert s == {};
    } else {
      var rest, last := xs[..|xs| - 1], xs[|xs| - 1];
      assert xs == rest + [last];
      CountDistinct(rest, s - {last});
    }
  }

  /** `sorted(s)` of a set: each element once, in key order. */
  method SortedElements<T(==)>(s: set<T>, key: T -> Key) returns (r: seq<T>)
    ensures Sorted(r, key)
    ensures forall x :: x in r <==> x in s
    ensures forall i, j :: 0 <= i < j < |r| ==> r[i] != r[j]
  {
    hide Less;
    hide SortBy;
    hide Leq;
    var rest := s;
    var xs: seq<T> := [];
    while rest != {}
      invariant rest <= s
      invariant forall x :: x in xs <==> x in s - rest
      invariant forall i, j :: 0 <= i < j < |xs| ==> xs[i] != xs[j]
      decreases rest
    {
      var x :| x in rest;
      assert x !in xs;
      DistinctSnoc(xs, x);
      rest := rest - {x};
      xs := xs + [x];
    }
    SortBySorts(xs, key);
    r := SortBy(xs, key);
    DistinctByCount(xs, r);
  }

  /** A sorted list of distinct names is strictly sorted. */
  lemma StrictNames(xs: seq<string>)
    requires Sorted(xs, TextKey) && forall i, j :: 0 <= i < j < |xs| ==> xs[i] != xs[j]
    ensures forall i, j :: 0 <= i < j < |xs| ==> Less(Text(xs[i]), Text(xs[j])) && TextLess(xs[i], xs[j])
  {
    forall i, j | 0 <= i < j < |xs| ensures Less(Text(xs[i]), Text(xs[j])) && TextLess(xs[i], xs[j]) {
      assert Leq(TextKey(xs[i]), TextKey(xs[j]));
    }
  }

  /** No two elements have the same name. */
  ghost predicate NamedApart<T, N>(xs: seq<T>, name: T -> N)
  {
    forall i, j :: 0 <= i < j < |xs| ==> name(xs[i]) != name(xs[j])
  }

  lemma PickedApart<T, N>(xs: seq<T>, name: T -> N, x: T, y: T)
    requires NamedApart(xs, name) && x in xs && y in xs && x != y
    ensures name(x) != name(y)
  {
    var a :| 0 <= a < |xs| && xs[a] == x;
    var b :| 0 <= b < |xs| && xs[b] == y;
  }

  lemma PermutedApart<T, N>(xs: seq<T>, ys: seq<T>, name: T -> N)
    requires NamedApart(xs, name) && multiset(xs) == multiset(ys)
    ensures NamedApart(ys, name)
  {
    forall i, j | 0 <= i < j < |xs| ensures xs[i] != xs[j] {
    }
    DistinctByCount(xs, ys);
    forall i, j | 0 <= i < j < |ys| ensures name(ys[i]) != name(ys[j]) {
      MultisetMember(ys, xs, ys[i]);
      MultisetMember(ys, xs, ys[j]);
      PickedApart(xs, name, ys[i], ys[j]);
    }
  }

  /** Sorting keeps the elements and their names apart. */
  lemma {:induction false} SortNamedApart<T, N>(xs: seq<T>, key: T -> Key, name: T -> N)
    requires NamedApart(xs, name)
    ensures Sorted(SortBy(xs, key), key) && NamedApart(SortBy(xs, key), name)
    ensures forall x :: x in SortBy(xs, key) <==> x in xs
  {
    hide Sorted;
    hide NamedApart;
    SortBySorts(xs, key);
    PermutedApart(xs, SortBy(xs, key), name);
  }

  ghost predicate StrictlySorted<T>(xs: seq<T>, key: T -> Key)
  {
    forall i, j :: 0 <= i < j < |xs| ==> Less(key(xs[i]), key(xs[j]))
  }

  /** Elements that differ in name, sorted by a key that includes the name, are strictly sorted. */
  lemma StrictByName<T, N>(xs: seq<T>, ys: seq<T>, key: T -> Key, name: T -> N)
    requires NamedApart(xs, name) && multiset(xs) == multiset(ys) && Sorted(ys, key)
    requires forall x, y :: x in xs && y in xs && key(x) == key(y) ==> name(x) == name(y)
    ensures StrictlySorted(ys, key)
  {
    hide Less;
    PermutedApart(xs, ys, name);
    forall i, j | 0 <= i < j < |ys| ensures Less(key(ys[i]), key(ys[j])) {
      MultisetMember(ys, xs, ys[i]);
      MultisetMember(ys, xs, ys[j]);
      assert Leq(key(ys[i]), key(ys[j])) && name(ys[i]) != name(ys[j]);
    }
  }

  lemma DistinctByCount<T>(xs: seq<T>, ys: seq<T>)
    requires multiset(xs) == multiset(ys)
    requires forall i, j :: 0 <= i < j < |xs| ==> xs[i] != xs[j]
    ensures forall i, j :: 0 <= i < j < |ys| ==> ys[i] != ys[j]
  {
    forall i, j | 0 <= i < j < |ys| ensures ys[i] != ys[j] {
      if ys[i] == ys[j] {
        var y := ys[i];
        assert ys == ys[..i] + [y] + ys[i + 1..j] + [y] + ys[j + 1..];
        assert multiset(xs)[y] >= 2;
        SingleCount(xs, y);
      }
    }
  }

  lemma {:induction false} SingleCount<T>(xs: seq<T>, y: T)
    requires forall i, j :: 0 <= i < j < |xs| ==> xs[i] != xs[j]
    ensures multiset(xs)[y] <= 1
  {
    if xs != [] {
      SingleCount(xs[1..], y);
      assert xs == [xs[0]] + xs[1..];
      if xs[0] == y {
        assert y !in xs[1..];
        assert y !in multiset(xs[1..]);
      }
    }
  }
}
