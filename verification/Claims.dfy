/** scripts/probe_filesystem_claim.py: non-blocking exclusive claims backed by lock files. */
module Claims {
  import opened Prelude
  import opened Keys

  type Pid = nat

  /** What is claimed: a purpose and an identity object, its values in canonical form. */
  datatype Request = Request(purpose: string, identity: map<string, string>)

  /** A lock file: the purpose and a digest over purpose and identity. */
  datatype Path = Path(purpose: string, digest: string)

  datatype ClaimError = Invalid | Busy | Unavailable

  datatype Outcome = Acquired(paths: seq<Path>) | Refused(error: ClaimError)

  predicate PurposeCharacter(c: char)
    ensures PurposeCharacter(c) <==> 'a' <= c <= 'z' || '0' <= c <= '9' || c == '_'
  {
    c in "abcdefghijklmnopqrstuvwxyz0123456789_"
  }

  /** A non-empty word of lower-case letters, digits and underscores. */
  predicate ValidPurpose(purpose: string)
    ensures ValidPurpose(purpose) <==>
            |purpose| > 0 && forall i :: 0 <= i < |purpose| ==>
              var c := purpose[i]; 'a' <= c <= 'z' || '0' <= c <= '9' || c == '_'
  {
    purpose != [] && forall i :: 0 <= i < |purpose| ==> PurposeCharacter(purpose[i])
  }

  /** `claim_path`, for a request with a valid purpose. */
  function PathOf(r: Request, digest: Request -> string): Path
  {
    Path(r.purpose, digest(r))
  }

  /** The file name, by which paths are sorted. */
  function PathKey(p: Path): Key
  {
    Text(p.purpose + "." + p.digest + ".lock")
  }

  function PreparedKey(x: (Path, Request)): Key { PathKey(x.0) }

  ghost predicate Injective(digest: Request -> string)
  {
    forall a, b :: digest(a) == digest(b) ==> a == b
  }

  // ----- what the lock files hold

  /** Why one claim is refused, if it is; `broken` are the lock files that cannot be opened or locked. */
  function Problem(holders: map<Path, Pid>, broken: set<Path>, x: (Path, Request)): Option<ClaimError>
  {
    if |x.1.identity| == 0 then Some(Invalid)
    else if x.0 in broken then Some(Unavailable)
    else if x.0 in holders then Some(Busy)
    else None
  }

  ghost function PathsOf(xs: seq<(Path, Request)>): set<Path>
  {
    set x | x in xs :: x.0
  }

  /** The holders once p has also taken the paths. */
  ghost function Taken(holders: map<Path, Pid>, p: Pid, paths: set<Path>): map<Path, Pid>
  {
    map x | x in holders.Keys + paths :: if x in paths then p else holders[x]
  }

  ghost function Prepared(rs: seq<Request>, digest: Request -> string): (r: seq<(Path, Request)>)
    ensures |r| == |rs| && forall i :: 0 <= i < |rs| ==> r[i] == (PathOf(rs[i], digest), rs[i])
  {
    seq(|rs|, i requires 0 <= i < |rs| => (PathOf(rs[i], digest), rs[i]))
  }

  /** Every purpose is valid and no lock file is asked for twice. */
  ghost predicate WellFormed(rs: seq<Request>, digest: Request -> string)
  {
    && (forall i :: 0 <= i < |rs| ==> ValidPurpose(rs[i].purpose))
    && (forall i, j :: 0 <= i < j < |rs| ==> PathOf(rs[i], digest) != PathOf(rs[j], digest))
  }

  ghost predicate AllFree(holders: map<Path, Pid>, broken: set<Path>, xs: seq<(Path, Request)>)
  {
    forall x :: x in xs ==> Problem(holders, broken, x).None?
  }

  /** e is the problem of the first of xs that has one. */
  ghost predicate FirstProblem(holders: map<Path, Pid>, broken: set<Path>, xs: seq<(Path, Request)>, e: ClaimError)
  {
    exists i :: 0 <= i < |xs| && Problem(holders, broken, xs[i]) == Some(e) &&
                forall j :: 0 <= j < i ==> Problem(holders, broken, xs[j]).None?
  }

  class LockDirectory {
    /** The process that holds each locked file. */
    var holders: map<Path, Pid>

    constructor ()
      ensures holders == map[]
    {
      holders := map[];
    }

    /** `acquire_probe_filesystem_claim`, up to the `yield`. */
    method Acquire(p: Pid, x: (Path, Request), broken: set<Path>) returns (e: Option<ClaimError>)
      modifies this
      ensures e == Problem(old(holders), broken, x)
      ensures holders == if e.None? then old(holders)[x.0 := p] else old(holders)
    {
      if |x.1.identity| == 0 { return Some(Invalid); }
      if x.0 in broken { return Some(Unavailable); }
      if x.0 in holders { return Some(Busy); }
      holders := holders[x.0 := p];
      return None;
    }

    /** Leaving the claimed section: the stack of claims is unwound, last taken first. */
    method Release(paths: seq<Path>)
      modifies this
      ensures holders == old(holders) - (set x | x in paths)
    {
      var k := |paths|;
      while k > 0
        invariant 0 <= k <= |paths|
        invariant holders == old(holders) - (set x | x in paths[k..])
      {
        k := k - 1;
        assert paths[k..] == [paths[k]] + paths[k + 1..];
        holders := holders - {paths[k]};
      }
      assert paths[0..] == paths;
    }

    /**
      `acquire_probe_filesystem_claims`, up to the `yield`: all claims in path order, or,
      when one is refused, none.
     */
    method AcquireAll(p: Pid, rs: seq<Request>, digest: Request -> string, broken: set<Path>) returns (r: Outcome)
      modifies this
      ensures r.Acquired? <==> WellFormed(rs, digest) && AllFree(old(holders), broken, Prepared(rs, digest))
      ensures r.Acquired? ==> holders == Taken(old(holders), p, PathsOf(Prepared(rs, digest)))
      ensures r.Acquired? ==>
                Sorted(r.paths, PathKey) && (set x | x in r.paths) == PathsOf(Prepared(rs, digest)) && |r.paths| == |rs|
      ensures r.Refused? ==> holders == old(holders)
      ensures r.Refused? && !WellFormed(rs, digest) ==> r.error == Invalid
      ensures r.Refused? && WellFormed(rs, digest) ==>
                FirstProblem(old(holders), broken, SortBy(Prepared(rs, digest), PreparedKey), r.error)
    {
      hide SortBy;
      hide PathKey;
      var prepared := Prepare(rs, digest);
      if prepared.Raised? { return Refused(Invalid); }
      SortedPaths(rs, digest);
      var xs := SortBy(prepared.value, PreparedKey);
      var acquired: seq<Path> := [];
      ghost var before := holders;
      for k := 0 to |xs|
        invariant |acquired| == k && forall i :: 0 <= i < k ==> acquired[i] == xs[i].0
        invariant holders == Taken(before, p, PathsOf(xs[..k]))
        invariant forall i :: 0 <= i < k ==> Problem(before, broken, xs[i]).None?
      {
        StillFree(before, broken, p, xs, k);
        var e := Acquire(p, xs[k], broken);
        if e.Some? {
          assert xs[k] in xs;
          Unwound(before, broken, p, xs, k, acquired);
          Release(acquired);
          return Refused(e.value);
        }
        acquired := acquired + [xs[k].0];
        TakenMore(before, p, xs, k);
      }
      assert xs[..|xs|] == xs;
      SortedAcquired(xs, acquired);
      return Acquired(acquired);
    }
  }

  /** The checks before any lock file is touched. */
  method Prepare(rs: seq<Request>, digest: Request -> string) returns (r: Result<seq<(Path, Request)>>)
    ensures r.Ok? <==> WellFormed(rs, digest)
    ensures r.Ok? ==> r.value == Prepared(rs, digest)
  {
    var prepared: seq<(Path, Request)> := [];
    var seen: set<Path> := {};
    for k := 0 to |rs|
      invariant prepared == Prepared(rs, digest)[..k]
      invariant forall i :: 0 <= i < k ==> ValidPurpose(rs[i].purpose) && PathOf(rs[i], digest) in seen
      invariant forall p :: p in seen ==> exists i :: 0 <= i < k && PathOf(rs[i], digest) == p
      invariant forall i, j :: 0 <= i < j < k ==> PathOf(rs[i], digest) != PathOf(rs[j], digest)
    {
      if !ValidPurpose(rs[k].purpose) { return Raised; }
      var path := PathOf(rs[k], digest);
      if path in seen { return Raised; }
      seen := seen + {path};
      prepared := prepared + [(path, rs[k])];
    }
    return Ok(prepared);
  }

  function PreparedPath(x: (Path, Request)): Path { x.0 }

  lemma SortedPaths(rs: seq<Request>, digest: Request -> string)
    requires WellFormed(rs, digest)
    ensures var xs, ys := Prepared(rs, digest), SortBy(Prepared(rs, digest), PreparedKey);
            && NamedApart(ys, PreparedPath) && Sorted(ys, PreparedKey) && |ys| == |rs|
            && PathsOf(ys) == PathsOf(xs) && forall x :: x in ys <==> x in xs
  {
    SortBySorts(Prepared(rs, digest), PreparedKey);
    SortNamedApart(Prepared(rs, digest), PreparedKey, PreparedPath);
  }

  /** What the process itself has taken so far does not stand in the way of the next claim. */
  lemma StillFree(before: map<Path, Pid>, broken: set<Path>, p: Pid, xs: seq<(Path, Request)>, k: nat)
    requires NamedApart(xs, PreparedPath) && k < |xs|
    ensures Problem(Taken(before, p, PathsOf(xs[..k])), broken, xs[k]) == Problem(before, broken, xs[k])
  {
    assert xs[k].0 !in PathsOf(xs[..k]) by {
      forall x | x in xs[..k] ensures x.0 != xs[k].0 {
        var i :| 0 <= i < k && xs[..k][i] == x;
      }
    }
  }

  lemma TakenMore(before: map<Path, Pid>, p: Pid, xs: seq<(Path, Request)>, k: nat)
    requires k < |xs|
    ensures Taken(before, p, PathsOf(xs[..k + 1])) == Taken(before, p, PathsOf(xs[..k]))[xs[k].0 := p]
  {
    assert xs[..k + 1] == xs[..k] + [xs[k]];
    assert forall x :: x in xs[..k + 1] <==> x in xs[..k] || x == xs[k];
    assert PathsOf(xs[..k + 1]) == PathsOf(xs[..k]) + {xs[k].0};
  }

  lemma Unwound(before: map<Path, Pid>, broken: set<Path>, p: Pid, xs: seq<(Path, Request)>, k: nat,
                acquired: seq<Path>)
    requires k < |xs| && |acquired| == k && forall i :: 0 <= i < k ==> acquired[i] == xs[i].0
    requires forall i :: 0 <= i < k ==> Problem(before, broken, xs[i]).None?
    ensures Taken(before, p, PathsOf(xs[..k])) - (set x | x in acquired) == before
  {
    assert PathsOf(xs[..k]) == set x | x in acquired by {
      forall x | x in acquired ensures x in PathsOf(xs[..k]) {
        var i :| 0 <= i < k && acquired[i] == x;
        assert xs[..k][i] in xs[..k];
      }
      forall x | x in PathsOf(xs[..k]) ensures x in acquired {
        var y :| y in xs[..k] && y.0 == x;
        var i :| 0 <= i < k && xs[..k][i] == y;
        assert acquired[i] == x;
      }
    }
    forall x | x in acquired ensures x !in before {
      var i :| 0 <= i < k && acquired[i] == x;
      assert Problem(before, broken, xs[i]).None?;
    }
  }

  lemma SortedAcquired(xs: seq<(Path, Request)>, acquired: seq<Path>)
    requires Sorted(xs, PreparedKey) && |acquired| == |xs| && forall i :: 0 <= i < |xs| ==> acquired[i] == xs[i].0
    ensures Sorted(acquired, PathKey) && (set x | x in acquired) == PathsOf(xs)
  {
    forall i, j | 0 <= i < j < |acquired| ensures Leq(PathKey(acquired[i]), PathKey(acquired[j])) {
      assert Leq(PreparedKey(xs[i]), PreparedKey(xs[j]));
    }
    forall x | x in acquired ensures x in PathsOf(xs) {
      var i :| 0 <= i < |acquired| && acquired[i] == x;
      assert xs[i] in xs;
    }
    forall x | x in PathsOf(xs) ensures x in acquired {
      var y :| y in xs && y.0 == x;
      var i :| 0 <= i < |xs| && xs[i] == y;
      assert acquired[i] == x;
    }
  }

  // ----- laws

  /** Under an injective digest, lock files repeat exactly when requests do. */
  lemma DuplicatesIff(rs: seq<Request>, digest: Request -> string)
    requires Injective(digest) && forall i :: 0 <= i < |rs| ==> ValidPurpose(rs[i].purpose)
    ensures WellFormed(rs, digest) <==> forall i, j :: 0 <= i < j < |rs| ==> rs[i] != rs[j]
  {
    if forall i, j :: 0 <= i < j < |rs| ==> rs[i] != rs[j] {
      forall i, j | 0 <= i < j < |rs| ensures PathOf(rs[i], digest) != PathOf(rs[j], digest) {
        assert rs[i] != rs[j];
      }
    }
    if WellFormed(rs, digest) {
      forall i, j | 0 <= i < j < |rs| ensures rs[i] != rs[j] {
        assert PathOf(rs[i], digest) != PathOf(rs[j], digest);
      }
    }
  }

  /** Taking free paths and giving them back leaves every other holder, and nothing else. */
  lemma TakeThenRelease(holders: map<Path, Pid>, p: Pid, paths: set<Path>)
    requires paths !! holders.Keys
    ensures Taken(holders, p, paths) - paths == holders
  {
  }

  /** While one set of claims is held, another overlapping it is refused, also to the same process. */
  lemma Exclusive(holders: map<Path, Pid>, p: Pid, broken: set<Path>, xs: seq<(Path, Request)>,
                  ys: seq<(Path, Request)>)
    ensures AllFree(Taken(holders, p, PathsOf(xs)), broken, ys) <==>
              AllFree(holders, broken, ys) && PathsOf(xs) !! PathsOf(ys)
  {
    var after := Taken(holders, p, PathsOf(xs));
    forall y | y in ys
      ensures Problem(after, broken, y).None? <==> Problem(holders, broken, y).None? && y.0 !in PathsOf(xs)
    {
    }
    if PathsOf(xs) * PathsOf(ys) != {} {
      var path :| path in PathsOf(xs) * PathsOf(ys);
      var y :| y in ys && y.0 == path;
      assert Problem(after, broken, y).Some?;
    }
    forall y | y in ys ensures y.0 in PathsOf(ys) {
    }
  }
}
