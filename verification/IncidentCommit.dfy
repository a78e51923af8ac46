/**
  scripts/incident_state_commit.py: publishing runtime evidence and diagnosis together
  through a write-ahead journal, with roll-forward recovery.
  `steps` is the number of durable file operations an operation performs before it
  crashes; an operation given at least as many steps as it takes completes.
 */
module IncidentCommit {
  import opened Prelude

  datatype EvidenceDoc = EvidenceDoc(incident: string, content: string)

  datatype DiagnosisDoc = DiagnosisDoc(incident: string, revision: int, content: string)

  /** `canonical_hash`, for either kind of document. */
  datatype Hashes = Hashes(evidence: EvidenceDoc -> string, diagnosis: DiagnosisDoc -> string)

  datatype Commit = Commit(incident: string, from: int, to: int, evidenceHash: string, diagnosisHash: string,
                           evidence: EvidenceDoc, diagnosis: DiagnosisDoc)

  datatype JournalFile = Unreadable | Holds(commit: Commit)

  datatype Store = Store(evidence: Option<EvidenceDoc>, diagnosis: Option<DiagnosisDoc>, journal: Option<JournalFile>)

  /** `_validate_commit`. */
  predicate ValidCommit(h: Hashes, c: Commit)
  {
    && c.incident != "" && c.to == c.from + 1
    && c.evidence.incident == c.incident && c.diagnosis.incident == c.incident
    && c.diagnosis.revision == c.to
    && c.evidenceHash == h.evidence(c.evidence) && c.diagnosisHash == h.diagnosis(c.diagnosis)
  }

  /** `prepare_commit`. */
  function Prepare(h: Hashes, incident: string, from: int, evidence: EvidenceDoc,
                   diagnosis: DiagnosisDoc): (r: Result<Commit>)
    ensures r.Ok? ==> ValidCommit(h, r.value) && r.value.evidence == evidence && r.value.diagnosis == diagnosis
    ensures r.Ok? <==> incident != "" && evidence.incident == incident && diagnosis.incident == incident &&
                       diagnosis.revision == from + 1
  {
    var c := Commit(incident, from, from + 1, h.evidence(evidence), h.diagnosis(diagnosis), evidence, diagnosis);
    if ValidCommit(h, c) then Ok(c) else Raised
  }

  datatype Outcome = Rejected | Crashed | Completed

  function AfterCommit(h: Hashes, s: Store, c: Commit, steps: nat): Store
  {
    if !ValidCommit(h, c) || steps == 0 then s
    else Store(if steps >= 2 then Some(c.evidence) else s.evidence,
               if steps >= 3 then Some(c.diagnosis) else s.diagnosis,
               if steps >= 4 then None else Some(Holds(c)))
  }

  function AfterRecover(h: Hashes, s: Store, steps: nat): Store
  {
    match s.journal
    case Some(Holds(c)) =>
      if !ValidCommit(h, c) then s
      else Store(if steps >= 1 then Some(c.evidence) else s.evidence,
                 if steps >= 2 then Some(c.diagnosis) else s.diagnosis,
                 if steps >= 3 then None else s.journal)
    case _ => s
  }

  class IncidentState {
    const hashes: Hashes
    var evidence: Option<EvidenceDoc>
    var diagnosis: Option<DiagnosisDoc>
    var journal: Option<JournalFile>

    constructor (hashes: Hashes)
      ensures this.hashes == hashes && Files() == Store(None, None, None)
    {
      this.hashes := hashes;
      evidence, diagnosis, journal := None, None, None;
    }

    function Files(): Store
      reads this
    {
      Store(evidence, diagnosis, journal)
    }

    /** `commit_incident_state`. */
    method Publish(c: Commit, steps: nat) returns (r: Outcome)
      modifies this
      ensures Files() == AfterCommit(hashes, old(Files()), c, steps)
      ensures r == if !ValidCommit(hashes, c) then Rejected else if steps < 4 then Crashed else Completed
    {
      if !ValidCommit(hashes, c) { return Rejected; }
      if steps == 0 { return Crashed; }
      journal := Some(Holds(c));
      if steps == 1 { return Crashed; }
      evidence := Some(c.evidence);
      if steps == 2 { return Crashed; }
      diagnosis := Some(c.diagnosis);
      if steps == 3 { return Crashed; }
      journal := None;
      return Completed;
    }

    /** `recover_incident_state_commit`. */
    method Recover(steps: nat) returns (r: Outcome)
      modifies this
      ensures Files() == AfterRecover(hashes, old(Files()), steps)
      ensures r.Rejected? <==> old(journal).Some? &&
                               (old(journal).value.Unreadable? || !ValidCommit(hashes, old(journal).value.commit))
      ensures r.Completed? ==> journal.None?
    {
      match journal
      case None => return Completed;
      case Some(Unreadable) => return Rejected;
      case Some(Holds(c)) =>
        if !ValidCommit(hashes, c) { return Rejected; }
        if steps == 0 { return Crashed; }
        evidence := Some(c.evidence);
        if steps == 1 { return Crashed; }
        diagnosis := Some(c.diagnosis);
        if steps == 2 { return Crashed; }
        journal := None;
        return Completed;
    }
  }

  // ----- refinement of one atomic update

  /** The pair a reader may rely on: the journal's if there is one, the two files otherwise. */
  datatype Pair = Pair(evidence: Option<EvidenceDoc>, diagnosis: Option<DiagnosisDoc>)

  function Effective(s: Store): Pair
  {
    match s.journal
    case Some(Holds(c)) => Pair(Some(c.evidence), Some(c.diagnosis))
    case _ => Pair(s.evidence, s.diagnosis)
  }

  /** The journal is absent or was written by a commit. */
  ghost predicate JournalSound(h: Hashes, s: Store)
  {
    s.journal.None? || (s.journal.value.Holds? && ValidCommit(h, s.journal.value.commit))
  }

  datatype Op =
    | Publishes(commit: Commit, steps: nat)
    | Recovers(steps: nat)
    | Transacts(evidence: EvidenceDoc, content: string, steps: nat)

  /** A caller's whole update: complete recovery, read the revision, prepare the next one, publish it. */
  function AfterTransact(h: Hashes, s: Store, evidence: EvidenceDoc, content: string, steps: nat): Store
  {
    var t := AfterRecover(h, s, 3);
    match t.diagnosis
    case None => t
    case Some(d) =>
      match Prepare(h, d.incident, d.revision, evidence, DiagnosisDoc(d.incident, d.revision + 1, content))
      case Raised => t
      case Ok(c) => AfterCommit(h, t, c, steps)
  }

  function Apply(h: Hashes, s: Store, op: Op): Store
  {
    match op
    case Publishes(c, steps) => AfterCommit(h, s, c, steps)
    case Recovers(steps) => AfterRecover(h, s, steps)
    case Transacts(evidence, content, steps) => AfterTransact(h, s, evidence, content, steps)
  }

  function RunStore(h: Hashes, s: Store, ops: seq<Op>): Store
    decreases |ops|
  {
    if ops == [] then s else RunStore(h, Apply(h, s, ops[0]), ops[1..])
  }

  /** The specification: a pair that each operation replaces at once or leaves alone. */
  function ApplyAtomic(h: Hashes, p: Pair, op: Op): Pair
  {
    match op
    case Recovers(_) => p
    case Publishes(c, steps) => if ValidCommit(h, c) && steps > 0 then Pair(Some(c.evidence), Some(c.diagnosis)) else p
    case Transacts(evidence, content, steps) =>
      if p.diagnosis.Some? && p.diagnosis.value.incident != "" && evidence.incident == p.diagnosis.value.incident &&
         steps > 0
      then Pair(Some(evidence), Some(DiagnosisDoc(evidence.incident, p.diagnosis.value.revision + 1, content)))
      else p
  }

  function RunAtomic(h: Hashes, p: Pair, ops: seq<Op>): Pair
    decreases |ops|
  {
    if ops == [] then p else RunAtomic(h, ApplyAtomic(h, p, ops[0]), ops[1..])
  }

  /** A commit changes the effective pair at its first durable step and at no other. */
  lemma ChangesOnce(h: Hashes, s: Store, c: Commit, steps: nat)
    requires ValidCommit(h, c)
    ensures Effective(AfterCommit(h, s, c, 0)) == Effective(s)
    ensures Effective(AfterCommit(h, s, c, steps + 1)) == Pair(Some(c.evidence), Some(c.diagnosis))
  {
  }

  lemma ApplyRefines(h: Hashes, s: Store, op: Op)
    requires JournalSound(h, s)
    ensures JournalSound(h, Apply(h, s, op))
    ensures Effective(Apply(h, s, op)) == ApplyAtomic(h, Effective(s), op)
  {
  }

  /** Any run of commits, recoveries and whole updates, crashing anywhere, is a run of atomic updates. */
  lemma {:induction false} RunRefines(h: Hashes, s: Store, ops: seq<Op>)
    requires JournalSound(h, s)
    ensures JournalSound(h, RunStore(h, s, ops))
    ensures Effective(RunStore(h, s, ops)) == RunAtomic(h, Effective(s), ops)
    decreases |ops|
  {
    if ops != [] {
      ApplyRefines(h, s, ops[0]);
      RunRefines(h, Apply(h, s, ops[0]), ops[1..]);
    }
  }

  /** After any run, a completed recovery leaves both files as the atomic run has them, and no journal. */
  lemma {:induction false} RecoveredFiles(h: Hashes, s: Store, ops: seq<Op>, steps: nat)
    requires JournalSound(h, s) && steps >= 3
    ensures var t := AfterRecover(h, RunStore(h, s, ops), steps);
            t.journal.None? && Pair(t.evidence, t.diagnosis) == RunAtomic(h, Effective(s), ops)
  {
    RunRefines(h, s, ops);
  }

  /** Recovery after recovery, each crashing where `crashes` says. */
  function Recoveries(crashes: seq<nat>): seq<Op>
  {
    seq(|crashes|, i requires 0 <= i < |crashes| => Recovers(crashes[i]))
  }

  /** A commit that crashes anywhere leaves, after recoveries that may crash too, both files old or both new. */
  lemma {:induction false} OldOrNew(h: Hashes, s: Store, c: Commit, steps: nat, crashes: seq<nat>, last: nat)
    requires s.journal.None? && last >= 3
    ensures var t := AfterRecover(h, RunStore(h, s, [Publishes(c, steps)] + Recoveries(crashes)), last);
            Pair(t.evidence, t.diagnosis) ==
            if ValidCommit(h, c) && steps > 0 then Pair(Some(c.evidence), Some(c.diagnosis))
            else Pair(s.evidence, s.diagnosis)
  {
    var ops := [Publishes(c, steps)] + Recoveries(crashes);
    assert ops[1..] == Recoveries(crashes);
    RecoveredFiles(h, s, ops, last);
    RecoveriesKeep(h, ApplyAtomic(h, Effective(s), ops[0]), Recoveries(crashes));
  }

  lemma {:induction false} RecoveriesKeep(h: Hashes, p: Pair, ops: seq<Op>)
    requires forall i :: 0 <= i < |ops| ==> ops[i].Recovers?
    ensures RunAtomic(h, p, ops) == p
    decreases |ops|
  {
    if ops != [] { RecoveriesKeep(h, p, ops[1..]); }
  }

  // ----- what a recovery accepts

  /** A journal is rolled forward exactly when its commit is one that preparing these documents yields. */
  lemma AcceptedIffPrepared(h: Hashes, s: Store, c: Commit, steps: nat)
    requires s.journal == Some(Holds(c)) && steps >= 3
    ensures AfterRecover(h, s, steps) ==
            if Prepare(h, c.incident, c.from, c.evidence, c.diagnosis) == Ok(c)
            then Store(Some(c.evidence), Some(c.diagnosis), None) else s
  {
  }

  /** Documents changed after the commit was prepared are rejected, if the hashes tell documents apart. */
  lemma AlteredRejected(h: Hashes, s: Store, c: Commit, evidence: EvidenceDoc, diagnosis: DiagnosisDoc, steps: nat)
    requires forall x, y :: h.evidence(x) == h.evidence(y) ==> x == y
    requires forall x, y :: h.diagnosis(x) == h.diagnosis(y) ==> x == y
    requires ValidCommit(h, c) && s.journal == Some(Holds(c.(evidence := evidence, diagnosis := diagnosis)))
    ensures AfterRecover(h, s, steps) == s || (evidence == c.evidence && diagnosis == c.diagnosis)
  {
    if evidence != c.evidence {
      assert h.evidence(evidence) != h.evidence(c.evidence);
    } else if diagnosis != c.diagnosis {
      assert h.diagnosis(diagnosis) != h.diagnosis(c.diagnosis);
    }
  }

  /** How many updates of the run reached their commit point. */
  function Committed(h: Hashes, p: Pair, ops: seq<Op>): nat
    decreases |ops|
  {
    if ops == [] then 0
    else (if ApplyAtomic(h, p, ops[0]) != p then 1 else 0) + Committed(h, ApplyAtomic(h, p, ops[0]), ops[1..])
  }

  /** When every commit is preceded by recovery, the revision counts the commits. */
  lemma {:induction false} RevisionCounts(h: Hashes, s: Store, ops: seq<Op>)
    requires JournalSound(h, s) && Effective(s).diagnosis.Some?
    requires forall i :: 0 <= i < |ops| ==> !ops[i].Publishes?
    ensures Effective(RunStore(h, s, ops)).diagnosis.Some?
    ensures Effective(RunStore(h, s, ops)).diagnosis.value.revision ==
            Effective(s).diagnosis.value.revision + Committed(h, Effective(s), ops)
    decreases |ops|
  {
    if ops != [] {
      ApplyRefines(h, s, ops[0]);
      RevisionCounts(h, Apply(h, s, ops[0]), ops[1..]);
    }
  }
}
