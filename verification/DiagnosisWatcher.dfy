/** scripts/live_diagnosis_watch.py: polling the evidence endpoint and keeping the engine up to date. */
module DiagnosisWatcher {
  import opened Prelude
  import opened LiveDiagnosis

  datatype TickState = WaitingForEvidence | EvidenceChanged | FreshnessRecomputed | Unchanged

  class Watcher {
    const engine: Engine
    /** The fingerprint of the last document, standing for the document: the digest of its canonical form. */
    var fingerprint: Option<Document>
    var revision: nat
    var polls: nat
    var changes: nat
    var empty: nat

    ghost predicate Valid()
      reads this, engine
    {
      && engine.Valid()
      && revision == changes
      && (revision > 0 <==> fingerprint.Some?)
      && (engine.cachedRevision.Some? ==> engine.cachedRevision.value <= revision)
      && (engine.cachedRevision == Some(revision) ==> Some(engine.built) == fingerprint)
    }

    /** The engine's snapshot is of this document and revision, and shows what a fresh build now would show. */
    ghost predicate Answered(d: Document, now: int)
      reads this, engine
    {
      && engine.cached.Some? && engine.cachedRevision == Some(revision) && engine.built == d
      && SnapshotAt(engine.catalog, d, now, revision).Ok?
      && engine.cached.value.partitions == SnapshotAt(engine.catalog, d, now, revision).value.partitions
    }

    constructor (engine: Engine)
      requires engine.Valid() && engine.cached.None?
      ensures Valid() && this.engine == engine && fingerprint.None? && revision == 0
    {
      this.engine := engine;
      fingerprint, revision, polls, changes, empty := None, 0, 0, 0, 0;
    }

    /**
      `tick`: the fetch may raise or find no evidence; the refresh may raise after the
      fingerprint was already advanced.
     */
    method Tick(fetched: Result<Option<Document>>, now: int) returns (r: Result<TickState>)
      requires Valid()
      modifies this, engine
      ensures Valid()
      ensures fetched.Raised? ==> r.Raised? && unchanged(this) && unchanged(engine)
      ensures fetched.Ok? ==> polls == old(polls) + 1 && empty == old(empty) + if fetched.value.None? then 1 else 0
      ensures fetched == Ok(None) ==> r == Ok(WaitingForEvidence) && unchanged(engine) &&
                                      fingerprint == old(fingerprint) && revision == old(revision)
      ensures fetched.Ok? && fetched.value.Some? ==>
                && fingerprint == fetched.value
                && revision == old(revision) + (if old(fingerprint) != fetched.value then 1 else 0)
                && r.Ok? == SnapshotAt(engine.catalog, fetched.value.value, now, revision).Ok?
                && (r.Raised? ==> unchanged(engine))
      ensures r.Ok? ==>
                && (r.value == WaitingForEvidence <==> fetched == Ok(None))
                && (r.value == EvidenceChanged <==> fetched != Ok(None) && old(fingerprint) != fetched.value)
                && (r.value == FreshnessRecomputed <==>
                      fetched != Ok(None) && old(fingerprint) == fetched.value && !old(engine.Fresh(revision, now)))
      ensures r.Ok? && fetched.value.Some? ==> Answered(fetched.value.value, now)
    {
      if fetched.Raised? { return Raised; }
      polls := polls + 1;
      match fetched.value
      case None =>
        empty := empty + 1;
        return Ok(WaitingForEvidence);
      case Some(document) =>
        if fingerprint != Some(document) {
          fingerprint := Some(document);
          revision, changes := revision + 1, changes + 1;
          var s := engine.Refresh(document, revision, now);
          return if s.Ok? then Ok(EvidenceChanged) else Raised;
        }
        var before := engine.runs;
        var s := engine.Current(document, revision, now);
        if s.Raised? { return Raised; }
        return Ok(if engine.runs > before then FreshnessRecomputed else Unchanged);
    }
  }

  /** One poll: what the endpoint answered, and when. */
  datatype Poll = Poll(fetched: Result<Option<Document>>, now: int)

  /** The last document fetched, or the one known before. */
  ghost function Latest(before: Option<Document>, polls: seq<Poll>): (r: Option<Document>)
  {
    if polls == [] then before
    else
      var last := polls[|polls| - 1].fetched;
      if last.Ok? && last.value.Some? then last.value else Latest(before, polls[..|polls| - 1])
  }

  /** How often a poll fetched another document than the last one fetched before it. */
  ghost function Changes(before: Option<Document>, polls: seq<Poll>): nat
  {
    if polls == [] then 0
    else
      var last, earlier := polls[|polls| - 1].fetched, polls[..|polls| - 1];
      Changes(before, earlier) + if last.Ok? && last.value.Some? && Latest(before, earlier) != last.value then 1 else 0
  }

  /**
    Over any run of ticks, wherever they raise, the revision counts the changes of the document
    and the last answer shows what a fresh build of the last document would.
   */
  method Watch(w: Watcher, polls: seq<Poll>) returns (last: Result<TickState>)
    requires w.Valid() && polls != []
    modifies w, w.engine
    ensures w.Valid()
    ensures w.fingerprint == Latest(old(w.fingerprint), polls)
    ensures w.revision == old(w.revision) + Changes(old(w.fingerprint), polls)
    ensures var poll := polls[|polls| - 1];
            last.Ok? && poll.fetched.Ok? && poll.fetched.value.Some? ==> w.Answered(poll.fetched.value.value, poll.now)
  {
    last := Raised;
    for i := 0 to |polls|
      invariant w.Valid()
      invariant w.fingerprint == Latest(old(w.fingerprint), polls[..i])
      invariant w.revision == old(w.revision) + Changes(old(w.fingerprint), polls[..i])
      invariant i > 0 ==>
                  var poll := polls[i - 1];
                  last.Ok? && poll.fetched.Ok? && poll.fetched.value.Some? ==>
                    w.Answered(poll.fetched.value.value, poll.now)
    {
      assert polls[..i + 1][..i] == polls[..i];
      last := w.Tick(polls[i].fetched, polls[i].now);
    }
    assert polls[..|polls|] == polls;
  }

  /** Polls that fetch the document known before, or none at all, never change the revision. */
  lemma {:induction false} SameDocument(before: Option<Document>, polls: seq<Poll>)
    requires forall i :: 0 <= i < |polls| && polls[i].fetched.Ok? && polls[i].fetched.value.Some? ==>
               polls[i].fetched.value == before
    ensures Latest(before, polls) == before && Changes(before, polls) == 0
  {
    if polls != [] { SameDocument(before, polls[..|polls| - 1]); }
  }
}
