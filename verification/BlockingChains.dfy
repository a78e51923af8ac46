/** scripts/postgresql_health_provider.py, `_blocking_chains`: who waits for whom, as maximal chains of pids. */
module BlockingChains {
  import opened Keys

  datatype Row = Row(pid: int, blockers: seq<int>)

  /** Blocked pids with the pids that block them, ascending. */
  type WaitGraph = map<int, seq<int>>

  predicate Waits(g: WaitGraph, a: int, b: int)
  {
    a in g && b in g[a]
  }

  predicate WaitWalk(g: WaitGraph, p: seq<int>)
  {
    forall i :: 0 < i < |p| ==> Waits(g, p[i - 1], p[i])
  }

  predicate Distinct(p: seq<int>)
  {
    forall i, j :: 0 <= i < j < |p| ==> p[i] != p[j]
  }

  /** A walk that ends at an unblocked pid, or at the first pid it meets a second time. */
  predicate Ended(g: WaitGraph, p: seq<int>)
  {
    p != [] && WaitWalk(g, p) &&
    var n := |p| - 1;
    (Distinct(p) && p[n] !in g) || (Distinct(p[..n]) && p[n] in p[..n])
  }

  /** What the search collects: ended walks from blocked pids. */
  predicate Collected(g: WaitGraph, p: seq<int>)
  {
    Ended(g, p) && p[0] in g
  }

  ghost predicate Nonempty(g: WaitGraph)
  {
    forall a :: a in g ==> g[a] != []
  }

  ghost function Pids(g: WaitGraph): set<int>
  {
    g.Keys + set a, b | a in g && b in g[a] :: b
  }

  ghost predicate Partial(g: WaitGraph, path: seq<int>)
  {
    path != [] && WaitWalk(g, path) && Distinct(path) && forall x :: x in path ==> x in Pids(g)
  }

  ghost predicate Continues(g: WaitGraph, path: seq<int>, c: seq<int>)
  {
    path <= c && Ended(g, c)
  }

  /** An ended walk repeats a pid only at its end. */
  lemma RepeatEnds(g: WaitGraph, c: seq<int>, i: nat, j: nat)
    requires Ended(g, c) && i < j < |c| && c[i] == c[j]
    ensures j == |c| - 1 && c[j] in c[..j]
  {
    var n := |c| - 1;
    assert c[..n][i] == c[i];
    assert c[..j][i] == c[i];
  }

  /** A continuation of a blocked path takes one blocker, and stops there if the path has it already. */
  lemma ContinuesIff(g: WaitGraph, path: seq<int>, c: seq<int>)
    requires Partial(g, path) && path[|path| - 1] in g
    ensures Continues(g, path, c) <==>
            exists b :: b in g[path[|path| - 1]] &&
                        (if b in path then c == path + [b] else Continues(g, path + [b], c))
  {
    var n := |path|;
    if Continues(g, path, c) {
      assert n < |c|;
      var b := c[n];
      assert Waits(g, c[n - 1], c[n]);
      assert path + [b] == c[..n + 1];
      if b in path {
        var i :| 0 <= i < n && path[i] == b;
        RepeatEnds(g, c, i, n);
      }
    }
    forall b | b in g[path[n - 1]] && b in path && c == path + [b] ensures Continues(g, path, c) {
      assert c[..n] == path;
    }
  }

  lemma InPids(g: WaitGraph, a: int, b: int)
    requires a in g && b in g[a]
    ensures b in Pids(g)
  {
    var blockers := set x, y | x in g && y in g[x] :: y;
    assert b in blockers;
  }

  lemma Advance(g: WaitGraph, path: seq<int>, b: int)
    requires Partial(g, path) && path[|path| - 1] in g && b in g[path[|path| - 1]] && b !in path
    ensures Partial(g, path + [b])
    ensures Pids(g) - (set x | x in path + [b]) < Pids(g) - (set x | x in path)
  {
    var q := path + [b];
    forall i | 0 < i < |q| ensures Waits(g, q[i - 1], q[i]) {
      if i < |path| { assert Waits(g, path[i - 1], path[i]); }
    }
    InPids(g, path[|path| - 1], b);
    assert b in q;
    forall x | x in path ensures x in q {}
    assert b in Pids(g) - (set x | x in path) && b !in Pids(g) - (set x | x in q);
  }

  class Collector {
    const graph: WaitGraph
    var chains: set<seq<int>>

    constructor (graph: WaitGraph)
      ensures this.graph == graph && chains == {}
    {
      this.graph := graph;
      chains := {};
    }

    /** `walk`: adds every ended continuation of the path, and nothing else. */
    method Walk(path: seq<int>)
      requires Nonempty(graph) && Partial(graph, path)
      modifies this
      ensures forall c :: c in chains <==> c in old(chains) || Continues(graph, path, c)
      decreases Pids(graph) - (set x | x in path)
    {
      hide Ended;
      hide Pids;
      var last := path[|path| - 1];
      if last !in graph {
        Unblocked(graph, path);
        chains := chains + {path};
        return;
      }
      var blockers := graph[last];
      ghost var taken: set<int> := {};
      for k := 0 to |blockers|
        invariant forall b :: b in taken <==> b in blockers[..k]
        invariant forall c :: c in chains <==> (
                    c in old(chains) ||
                    exists b :: b in taken && (if b in path then c == path + [b] else Continues(graph, path + [b], c)))
      {
        var blocker := blockers[k];
        assert blockers[..k + 1] == blockers[..k] + [blocker];
        if blocker in path {
          chains := chains + {path + [blocker]};
        } else {
          Advance(graph, path, blocker);
          Walk(path + [blocker]);
        }
        taken := taken + {blocker};
      }
      assert blockers[..|blockers|] == blockers;
      forall c ensures c in chains <==> c in old(chains) || Continues(graph, path, c) {
        ContinuesIff(graph, path, c);
      }
    }
  }

  lemma Unblocked(g: WaitGraph, path: seq<int>)
    requires Partial(g, path) && path[|path| - 1] !in g
    ensures forall c :: Continues(g, path, c) <==> c == path
  {
    forall c ensures Continues(g, path, c) <==> c == path {
      if path <= c && WaitWalk(g, c) {
        assert |path| < |c| ==> Waits(g, c[|path| - 1], c[|path|]);
        assert |path| == |c| ==> path == c;
      }
    }
  }

  // ----- maximal chains

  predicate Suffix(c: seq<int>, d: seq<int>)
  {
    |c| <= |d| && d[|d| - |c|..] == c
  }

  predicate ProperSuffix(c: seq<int>, d: seq<int>)
  {
    |c| < |d| && d[|d| - |c|..] == c
  }

  lemma SuffixTransitive(a: seq<int>, b: seq<int>, c: seq<int>)
    requires Suffix(a, b) && Suffix(b, c)
    ensures Suffix(a, c)
    ensures ProperSuffix(a, b) || ProperSuffix(b, c) ==> ProperSuffix(a, c)
  {
    assert c[|c| - |b|..][|b| - |a|..] == c[|c| - |a|..];
  }

  function ChainKey(c: seq<int>): Key
  {
    Tuple(seq(|c|, i requires 0 <= i < |c| => Num(c[i])))
  }

  lemma ChainKeyInjective(c: seq<int>, d: seq<int>)
    requires ChainKey(c) == ChainKey(d)
    ensures c == d
  {
    var P, Q := ChainKey(c).parts, ChainKey(d).parts;
    assert |P| == |c| && |Q| == |d|;
    forall i | 0 <= i < |c| ensures c[i] == d[i] {
      assert P[i] == Num(c[i]) && Q[i] == Num(d[i]);
    }
  }

  function LongestFirst(c: seq<int>): Key
  {
    Tuple([Num(-|c|), ChainKey(c)])
  }

  lemma LongestFirstOrder(c: seq<int>, d: seq<int>)
    requires Leq(LongestFirst(c), LongestFirst(d))
    ensures |c| >= |d|
  {
    var P, Q := LongestFirst(c).parts, LongestFirst(d).parts;
    assert P == Q || LessAll(P, Q);
    assert P[0] == Q[0] || Less(P[0], Q[0]);
    assert P[0] == Num(-|c|) && Q[0] == Num(-|d|);
  }

  /** m keeps a chain of s unless a longer one of s ends in it. */
  ghost predicate Maximal(s: set<seq<int>>, m: seq<seq<int>>)
  {
    && (forall c :: c in m <==> c in s && !exists d :: d in s && ProperSuffix(c, d))
    && (forall c :: c in s ==> exists d :: d in m && Suffix(c, d))
  }

  /** The loop that drops every chain some longer kept chain ends in. */
  method KeepMaximal(s: set<seq<int>>) returns (m: seq<seq<int>>)
    ensures Maximal(s, m)
    ensures forall i, j :: 0 <= i < j < |m| ==> m[i] != m[j]
  {
    hide Less;
    hide ProperSuffix;
    hide Suffix;
    hide Covered;
    hide Maximal;
    hide LongestFirst;
    var order := SortedElements(s, LongestFirst);
    m := [];
    for k := 0 to |order|
      invariant forall c :: c in m ==> c in s
      invariant forall j :: k <= j < |order| ==> order[j] !in m
      invariant forall i :: 0 <= i < k ==> Covered(order[i], m)
      invariant forall c, d :: c in m && d in s ==> !ProperSuffix(c, d)
      invariant forall i, j :: 0 <= i < j < |m| ==> m[i] != m[j]
    {
      var chain := order[k];
      assert chain in order;
      if exists other :: other in m && ProperSuffix(chain, other) {
        Dropped(chain, m);
      } else {
        Keeps(s, order, k, m);
        m := m + [chain];
      }
    }
    FinishMaximal(s, order, m);
  }

  lemma Dropped(c: seq<int>, m: seq<seq<int>>)
    requires exists d :: d in m && ProperSuffix(c, d)
    ensures Covered(c, m)
  {
  }

  lemma EndsInKept(c: seq<int>, d: seq<int>, m: seq<seq<int>>)
    requires ProperSuffix(c, d) && Covered(d, m)
    ensures exists e :: e in m && ProperSuffix(c, e)
  {
    var e :| e in m && Suffix(d, e);
    SuffixTransitive(c, d, e);
  }

  /** A chain no kept one ends in is not a proper suffix of any chain: a longer one was looked at before. */
  lemma Keeps(s: set<seq<int>>, order: seq<seq<int>>, k: nat, m: seq<seq<int>>)
    requires Sorted(order, LongestFirst) && (forall x :: x in order <==> x in s) && k < |order|
    requires forall i :: 0 <= i < k ==> Covered(order[i], m)
    requires !exists other :: other in m && ProperSuffix(order[k], other)
    ensures forall d :: d in s ==> !ProperSuffix(order[k], d)
    ensures forall i :: 0 <= i <= k ==> Covered(order[i], m + [order[k]])
  {
    hide Less;
    hide LongestFirst;
    var chain := order[k];
    forall d | d in s ensures !ProperSuffix(chain, d) {
      if ProperSuffix(chain, d) {
        var i :| 0 <= i < |order| && order[i] == d;
        LongerEarlier(order, k, i);
        EndsInKept(chain, order[i], m);
      }
    }
    forall i | 0 <= i <= k ensures Covered(order[i], m + [chain]) {
      if i < k { StillCovered(order[i], m, chain); } else { assert chain in m + [chain] && Suffix(chain, chain); }
    }
  }

  ghost predicate Covered(c: seq<int>, m: seq<seq<int>>)
  {
    exists d :: d in m && Suffix(c, d)
  }

  lemma StillCovered(c: seq<int>, m: seq<seq<int>>, e: seq<int>)
    requires Covered(c, m)
    ensures Covered(c, m + [e])
  {
    var d :| d in m && Suffix(c, d);
    assert d in m + [e];
  }

  lemma LongerEarlier(order: seq<seq<int>>, k: nat, i: nat)
    requires Sorted(order, LongestFirst) && k < |order| && i < |order| && |order[k]| < |order[i]|
    ensures i < k
  {
    if k < i {
      assert Leq(LongestFirst(order[k]), LongestFirst(order[i]));
      LongestFirstOrder(order[k], order[i]);
    }
  }

  lemma FinishMaximal(s: set<seq<int>>, order: seq<seq<int>>, m: seq<seq<int>>)
    requires forall x :: x in order <==> x in s
    requires forall c :: c in m ==> c in order
    requires forall i :: 0 <= i < |order| ==> Covered(order[i], m)
    requires forall c, d :: c in m && d in s ==> !ProperSuffix(c, d)
    ensures Maximal(s, m)
  {
    hide Suffix;
    hide ProperSuffix;
    forall c | c in s ensures exists d :: d in m && Suffix(c, d) {
      var i :| 0 <= i < |order| && order[i] == c;
      assert Covered(order[i], m);
    }
    forall c | c in s && (forall d :: d in s ==> !ProperSuffix(c, d)) ensures c in m {
      var d :| d in m && Suffix(c, d);
      SuffixOrEqual(c, d);
    }
  }

  lemma SuffixOrEqual(c: seq<int>, d: seq<int>)
    requires Suffix(c, d)
    ensures ProperSuffix(c, d) || c == d
  {
  }

  // ----- the whole function

  /** A blocked pid's row; a later row of the same pid replaces an earlier one. */
  function Blockers(rows: seq<Row>, pid: int): (r: set<int>)
    decreases |rows|
  {
    if rows == [] then {}
    else
      var row := rows[|rows| - 1];
      if row.pid == pid && row.blockers != [] then set b | b in row.blockers
      else Blockers(rows[..|rows| - 1], pid)
  }

  ghost predicate GraphOf(rows: seq<Row>, g: WaitGraph)
  {
    && Nonempty(g)
    && (forall a, b :: Waits(g, a, b) <==> b in Blockers(rows, a))
    && (forall a :: a in g <==> Blockers(rows, a) != {})
  }

  method BuildGraph(rows: seq<Row>) returns (g: WaitGraph)
    ensures GraphOf(rows, g)
  {
    g := map[];
    for i := 0 to |rows|
      invariant GraphOf(rows[..i], g)
    {
      assert rows[..i + 1][..i] == rows[..i];
      var row := rows[i];
      if row.blockers != [] {
        var blockers := SortedElements(set b | b in row.blockers, (b: int) => Num(b));
        var first := row.blockers[0];
        assert first in (set b | b in row.blockers);
        assert first in blockers;
        GraphRow(rows[..i + 1], g, blockers);
        g := g[row.pid := blockers];
      } else {
        GraphSkip(rows[..i + 1], g);
      }
    }
    assert rows[..|rows|] == rows;
  }

  lemma GraphRow(rows: seq<Row>, g: WaitGraph, blockers: seq<int>)
    requires rows != [] && GraphOf(rows[..|rows| - 1], g)
    requires var row := rows[|rows| - 1]; row.blockers != [] && forall b :: b in blockers <==> b in row.blockers
    requires blockers != []
    ensures GraphOf(rows, g[rows[|rows| - 1].pid := blockers])
  {
    var row := rows[|rows| - 1];
    var g' := g[row.pid := blockers];
    assert row.blockers[0] in row.blockers;
    forall a, b ensures Waits(g', a, b) <==> b in Blockers(rows, a) {
      assert Waits(g, a, b) <==> b in Blockers(rows[..|rows| - 1], a);
    }
    forall a ensures a in g' <==> Blockers(rows, a) != {} {
      if a == row.pid {
        assert row.blockers[0] in Blockers(rows, a);
      } else {
        assert Blockers(rows, a) == Blockers(rows[..|rows| - 1], a);
      }
    }
  }

  lemma GraphSkip(rows: seq<Row>, g: WaitGraph)
    requires rows != [] && GraphOf(rows[..|rows| - 1], g) && rows[|rows| - 1].blockers == []
    ensures GraphOf(rows, g)
  {
    forall a ensures Blockers(rows, a) == Blockers(rows[..|rows| - 1], a) {}
  }

  /** The walks from every blocked pid, collected in one set. */
  method CollectAll(graph: WaitGraph) returns (s: set<seq<int>>)
    requires Nonempty(graph)
    ensures forall c :: c in s <==> Collected(graph, c)
  {
    hide Less;
    hide Ended;
    hide Pids;
    var collector := new Collector(graph);
    var blocked := SortedElements(graph.Keys, (b: int) => Num(b));
    for k := 0 to |blocked|
      invariant collector.graph == graph
      invariant forall c :: c in collector.chains <==> exists i :: 0 <= i < k && Continues(graph, [blocked[i]], c)
    {
      assert blocked[k] in blocked;
      StartPartial(graph, blocked[k]);
      collector.Walk([blocked[k]]);
    }
    s := collector.chains;
    forall c ensures c in s <==> Collected(graph, c) {
      StartsBlocked(graph, blocked, c);
    }
  }

  /** `_blocking_chains`: exactly the collected chains no longer one ends in, each once, in order. */
  method Chains(rows: seq<Row>) returns (result: seq<seq<int>>, ghost g: WaitGraph)
    ensures GraphOf(rows, g)
    ensures forall c :: c in result <==> Collected(g, c) && !exists d :: Collected(g, d) && ProperSuffix(c, d)
    ensures forall c :: Collected(g, c) ==> exists d :: d in result && Suffix(c, d)
    ensures StrictlySorted(result, ChainKey)
  {
    hide Less;
    hide ProperSuffix;
    hide Suffix;
    hide Collected;
    hide Maximal;
    hide SortBy;
    hide StrictlySorted;
    var graph := BuildGraph(rows);
    g := graph;
    var s := CollectAll(graph);
    var maximal := KeepMaximal(s);
    result := SortBy(maximal, ChainKey);
    ChainsSorted(g, s, maximal);
  }

  lemma ChainsApart(maximal: seq<seq<int>>, r: seq<seq<int>>)
    requires multiset(maximal) == multiset(r) && Sorted(r, ChainKey)
    requires forall i, j :: 0 <= i < j < |maximal| ==> maximal[i] != maximal[j]
    ensures StrictlySorted(r, ChainKey)
  {
    hide ChainKey;
    DistinctByCount(maximal, r);
    forall i, j | 0 <= i < j < |r| ensures Less(ChainKey(r[i]), ChainKey(r[j])) {
      assert Leq(ChainKey(r[i]), ChainKey(r[j]));
      if ChainKey(r[i]) == ChainKey(r[j]) { ChainKeyInjective(r[i], r[j]); }
    }
  }

  lemma {:induction false} ChainsSorted(g: WaitGraph, s: set<seq<int>>, maximal: seq<seq<int>>)
    requires Maximal(s, maximal) && forall c :: c in s <==> Collected(g, c)
    requires forall i, j :: 0 <= i < j < |maximal| ==> maximal[i] != maximal[j]
    ensures var r := SortBy(maximal, ChainKey);
            && StrictlySorted(r, ChainKey)
            && (forall c :: c in r <==> Collected(g, c) && !exists d :: Collected(g, d) && ProperSuffix(c, d))
            && (forall c :: Collected(g, c) ==> exists d :: d in r && Suffix(c, d))
  {
    hide Collected;
    hide Maximal;
    hide Suffix;
    hide ProperSuffix;
    hide Sorted;
    hide StrictlySorted;
    hide SortBy;
    SortBySorts(maximal, ChainKey);
    ChainsApart(maximal, SortBy(maximal, ChainKey));
    MaximalOf(g, s, maximal, SortBy(maximal, ChainKey));
  }

  lemma KeptOrCovered(g: WaitGraph, s: set<seq<int>>, m: seq<seq<int>>, r: seq<seq<int>>, c: seq<int>)
    requires Maximal(s, m) && (forall x :: x in s <==> Collected(g, x)) && forall x :: x in r <==> x in m
    ensures c in r <==> Collected(g, c) && !exists d :: Collected(g, d) && ProperSuffix(c, d)
    ensures Collected(g, c) ==> exists d :: d in r && Suffix(c, d)
  {
    hide Collected;
    hide Suffix;
    hide ProperSuffix;
    if Collected(g, c) {
      var d :| d in m && Suffix(c, d);
      assert d in r;
    }
  }

  lemma MaximalOf(g: WaitGraph, s: set<seq<int>>, m: seq<seq<int>>, r: seq<seq<int>>)
    requires Maximal(s, m) && (forall c :: c in s <==> Collected(g, c)) && forall c :: c in r <==> c in m
    ensures forall c :: c in r <==> Collected(g, c) && !exists d :: Collected(g, d) && ProperSuffix(c, d)
    ensures forall c :: Collected(g, c) ==> exists d :: d in r && Suffix(c, d)
  {
    hide *;
    forall c
      ensures c in r <==> Collected(g, c) && !exists d :: Collected(g, d) && ProperSuffix(c, d)
      ensures Collected(g, c) ==> exists d :: d in r && Suffix(c, d)
    {
      KeptOrCovered(g, s, m, r, c);
    }
  }

  lemma StartPartial(g: WaitGraph, a: int)
    requires a in g
    ensures Partial(g, [a])
  {
  }

  lemma StartsBlocked(g: WaitGraph, blocked: seq<int>, c: seq<int>)
    requires forall x :: x in blocked <==> x in g
    ensures Collected(g, c) <==> exists i :: 0 <= i < |blocked| && Continues(g, [blocked[i]], c)
  {
    if Collected(g, c) {
      var i :| 0 <= i < |blocked| && blocked[i] == c[0];
      assert [blocked[i]] <= c;
    }
    forall i | 0 <= i < |blocked| && Continues(g, [blocked[i]], c) ensures Collected(g, c) {
      assert blocked[i] in blocked && c[0] == blocked[i];
    }
  }

  /** Every partial walk can be continued to an ended one. */
  lemma {:induction false} CanEnd(g: WaitGraph, path: seq<int>) returns (c: seq<int>)
    requires Nonempty(g) && Partial(g, path)
    ensures Continues(g, path, c)
    decreases Pids(g) - (set x | x in path)
  {
    var last := path[|path| - 1];
    if last !in g {
      c := path;
    } else {
      var b := g[last][0];
      if b in path {
        c := path + [b];
        assert c[..|path|] == path;
        assert Waits(g, last, b);
      } else {
        Advance(g, path, b);
        c := CanEnd(g, path + [b]);
        assert path <= path + [b] <= c;
      }
    }
  }

  /** Every blocked pid appears in some result. */
  lemma BlockedAppears(rows: seq<Row>, g: WaitGraph, result: seq<seq<int>>, a: int)
    requires GraphOf(rows, g) && forall c :: Collected(g, c) ==> exists d :: d in result && Suffix(c, d)
    requires a in g
    ensures exists d :: d in result && a in d
  {
    StartPartial(g, a);
    var c := CanEnd(g, [a]);
    assert c[0] == a && Collected(g, c);
    var d :| d in result && Suffix(c, d);
    assert d[|d| - |c|] == a;
  }

  /** The first pid of a result and every one but the last are blocked, and only the last can repeat one. */
  lemma ResultShape(g: WaitGraph, c: seq<int>)
    requires Collected(g, c)
    ensures 2 <= |c| && WaitWalk(g, c) && forall k :: 0 <= k < |c| - 1 ==> c[k] in g
    ensures Distinct(c) ==> c[|c| - 1] !in g
    ensures !Distinct(c) ==> exists i :: 0 <= i < |c| - 1 && OnlyRepeat(c, i)
  {
    var n := |c| - 1;
    forall k | 0 <= k < n ensures c[k] in g { assert Waits(g, c[k], c[k + 1]); }
    if !Distinct(c) {
      var i, j :| 0 <= i < j < |c| && c[i] == c[j];
      RepeatEnds(g, c, i, j);
      forall k, l | 0 <= k < l < |c| && c[k] == c[l] ensures k == i && l == n {
        RepeatEnds(g, c, k, l);
        if k < i { RepeatEnds(g, c, k, i); } else if i < k { RepeatEnds(g, c, i, k); }
      }
      assert OnlyRepeat(c, i);
    } else if c[n] in c[..n] {
      assert false;
    }
  }

  ghost predicate OnlyRepeat(c: seq<int>, i: nat)
    requires i < |c| - 1
  {
    c[i] == c[|c| - 1] && forall k, l :: 0 <= k < l < |c| && c[k] == c[l] ==> k == i && l == |c| - 1
  }

  // ----- wait cycles

  /** Pids that wait for each other in a circle. */
  ghost predicate Cycle(g: WaitGraph, p: seq<int>)
  {
    2 <= |p| && WaitWalk(g, p) && p[0] == p[|p| - 1]
  }

  /** The chain ends in a circle that a is on. */
  ghost predicate ClosesAround(c: seq<int>, a: int)
  {
    exists i, k :: 0 <= i <= k < |c| - 1 && c[i] == c[|c| - 1] && c[k] == a
  }

  lemma CutLoop(g: WaitGraph, p: seq<int>, i: nat, j: nat)
    requires Cycle(g, p) && i < j < |p| - 1 && p[i] == p[j]
    ensures Cycle(g, p[..i] + p[j..]) && (p[..i] + p[j..])[0] == p[0]
  {
    var q := p[..i] + p[j..];
    forall k | 0 < k < |q| ensures Waits(g, q[k - 1], q[k]) {
      if k <= i {
        assert Waits(g, p[k - 1], p[k]);
      } else {
        assert Waits(g, p[j - i + k - 1], p[j - i + k]);
      }
    }
  }

  /** A circle without its inner loops. */
  lemma {:induction false} SimpleCycle(g: WaitGraph, p: seq<int>) returns (q: seq<int>)
    requires Cycle(g, p)
    ensures Cycle(g, q) && q[0] == p[0] && Distinct(q[..|q| - 1])
    decreases |p|
  {
    q := p;
    if !Distinct(p[..|p| - 1]) {
      var i, j :| 0 <= i < j < |p| - 1 && p[..|p| - 1][i] == p[..|p| - 1][j];
      CutLoop(g, p, i, j);
      q := SimpleCycle(g, p[..i] + p[j..]);
    }
  }

  /** The circle that a chain ends in, read from one of its pids on. */
  lemma Rotated(g: WaitGraph, c: seq<int>, i: nat, k: nat)
    requires WaitWalk(g, c) && i <= k < |c| - 1 && c[i] == c[|c| - 1]
    ensures Cycle(g, c[k..|c| - 1] + c[i..k + 1])
  {
    var n := |c| - 1;
    var p := c[k..n] + c[i..k + 1];
    forall l | 0 < l < |p| ensures Waits(g, p[l - 1], p[l]) {
      if l < n - k {
        assert Waits(g, c[k + l - 1], c[k + l]);
      } else if l == n - k {
        assert Waits(g, c[n - 1], c[n]);
      } else {
        assert Waits(g, c[l - (n - k) + i - 1], c[l - (n - k) + i]);
      }
    }
  }

  lemma SuffixCloses(c: seq<int>, d: seq<int>)
    requires 2 <= |c| && c[0] == c[|c| - 1] && Suffix(c, d)
    ensures ClosesAround(d, c[0])
  {
    var i := |d| - |c|;
    assert d[i..][0] == d[i] && d[i..][|c| - 1] == d[|d| - 1];
  }

  lemma CycleCollected(g: WaitGraph, c: seq<int>)
    requires Cycle(g, c) && Distinct(c[..|c| - 1])
    ensures Collected(g, c)
  {
    assert c[..|c| - 1][0] == c[|c| - 1];
    assert Waits(g, c[0], c[1]);
  }

  lemma ClosesOnCycle(g: WaitGraph, d: seq<int>, a: int) returns (p: seq<int>)
    requires WaitWalk(g, d) && ClosesAround(d, a)
    ensures Cycle(g, p) && p[0] == a
  {
    var i, k :| 0 <= i <= k < |d| - 1 && d[i] == d[|d| - 1] && d[k] == a;
    Rotated(g, d, i, k);
    p := d[k..|d| - 1] + d[i..k + 1];
  }

  /** A pid is in a wait cycle exactly when some result ends in a circle that the pid is on. */
  lemma {:induction false} CyclesReported(g: WaitGraph, result: seq<seq<int>>, a: int)
    requires forall c :: c in result ==> Collected(g, c)
    requires forall c :: Collected(g, c) ==> exists d :: d in result && Suffix(c, d)
    ensures (exists p :: Cycle(g, p) && p[0] == a) <==> exists d :: d in result && ClosesAround(d, a)
  {
    hide Suffix;
    hide ClosesAround;
    hide Distinct;
    if p :| Cycle(g, p) && p[0] == a {
      var c := SimpleCycle(g, p);
      CycleCollected(g, c);
      var d :| d in result && Suffix(c, d);
      SuffixCloses(c, d);
    }
    if d :| d in result && ClosesAround(d, a) {
      var p := ClosesOnCycle(g, d, a);
    }
  }
}
