/** Runs of the probe-session protocol on documents that the schemas accept and a clock that does not go back. */
module ProbeGenuine {
  import opened Prelude
  import opened SessionFiles
  import opened SchemaText
  import Reconciliation
  import Journal
  import opened ProbeProtocol
  import opened ProbeWrites
  import opened ProbeInvariant
  import opened ProbeSteps
  import opened ProbeSafety
  import opened ProbeSlots

  /** Observed, and not yet expired. */
  predicate Active(x: Instance, now: int)
  {
    x.observedAt <= now && (x.expiresAt.None? || now < x.expiresAt.value)
  }

  /** Some active instance of the partition says that the target is observed. */
  ghost predicate Diagnosed(e: Evidence, scope: Scope, target: string, now: int)
  {
    exists i :: i in e.instances && Diagnoses(e.instances[i], scope, target, now)
  }

  predicate Diagnoses(x: Instance, scope: Scope, target: string, now: int)
  {
    Active(x, now) && x.observed && x.scope == scope && x.observation == target
  }

  ghost predicate Recommended(rs: seq<Recommendation>, scope: Scope, target: string)
  {
    exists k :: 0 <= k < |rs| && rs[k].scope == scope && rs[k].target == target
  }

  /** One recommendation for each target observed in each partition, as a snapshot built at this time has them. */
  ghost predicate Follows(rs: seq<Recommendation>, e: Evidence, now: int)
  {
    && (forall j, k :: 0 <= j < k < |rs| ==> (rs[j].scope, rs[j].target) != (rs[k].scope, rs[k].target))
    && (forall k :: 0 <= k < |rs| ==> ConceptText(rs[k].probe))
    && forall scope, target :: Recommended(rs, scope, target) <==> Diagnosed(e, scope, target, now)
  }

  /**
    An initial world with evidence, and the snapshot built from it at this time; `checked` says
    that the evidence has passed the loader's schema.
   */
  ghost predicate Starts(checked: bool, w: World, at: int)
  {
    && Initial(w) && (checked ==> w.disk.evidence.incident != "") && w.disk.evidence.instances != map[]
    && (forall i :: i in w.disk.evidence.instances ==> Acceptable(checked, w.disk.evidence.instances[i]))
    && w.disk.snapshot.incident == w.disk.evidence.incident
    && w.disk.snapshot.mentions == w.disk.evidence.instances.Keys
    && Follows(w.disk.snapshot.recommended, w.disk.evidence, at)
  }

  /** It has an id, a concept as its observation where that is checked, and if it expires, it was observed before. */
  predicate Acceptable(checked: bool, x: Instance)
  {
    x.id != "" && (checked ==> ConceptText(x.observation)) && (x.expiresAt.Some? ==> x.observedAt < x.expiresAt.value)
  }

  /** What a session id is a digest of: incident, probe, scope and start time. */
  type Ids = (string, string, Scope, int) -> string

  ghost predicate WellFormed(ids: Ids)
  {
    forall i, p, s, t :: SessionText(ids(i, p, s, t))
  }

  /**
    A begin generates the id of its session; a finish produces an acceptable instance that
    expires, and rebuilds the snapshot from the evidence it wrote.
   */
  ghost predicate Plausible(checked: bool, ids: Ids, w: World, a: Action)
  {
    a.move.Continue? ==>
      var o, q := a.move.outside, w.At(a.pid);
      && (q.InBegin? && q.b.CapturesBaseline? ==>
            o.newId == ids(q.b.plan.incident, q.b.plan.probe, q.b.plan.scope, o.now))
      && (q.InFinish? && q.f.Evaluates? ==>
            && EvidenceText(o.instance.id) && (checked ==> ConceptText(o.instance.observation))
            && o.instance.expiresAt.Some? && o.now < o.instance.expiresAt.value)
      && (q.InFinish? && q.f.WritesSnapshot? ==> Follows(o.recommended, q.f.evidence, o.now))
  }

  /** The clock does not run backwards. */
  ghost predicate Timed(schedule: seq<Action>, at: int)
  {
    && (forall k :: 0 <= k < |schedule| && schedule[k].move.Continue? ==> at <= schedule[k].move.outside.now)
    && (forall j, k :: 0 <= j < k < |schedule| && schedule[j].move.Continue? && schedule[k].move.Continue? ==>
          schedule[j].move.outside.now <= schedule[k].move.outside.now)
  }

  ghost predicate Genuine(checked: bool, ids: Ids, w: World, schedule: seq<Action>, at: int)
  {
    && WellFormed(ids) && Starts(checked, w, at) && Timed(schedule, at)
    && forall k :: 0 <= k < |schedule| ==> Plausible(checked, ids, Run(w, schedule)[k], schedule[k])
  }

  /** Begins take no target-scope claims but these. */
  ghost predicate Within(w: World, claims: iset<Claim>)
  {
    forall c :: c in w.claims && c.TargetScope? ==> c in claims
  }

  ghost predicate Takes(w: World, schedule: seq<Action>, claims: iset<Claim>)
  {
    forall k :: 0 <= k <= |schedule| ==> Within(Run(w, schedule)[k], claims)
  }

  /** Over every genuine run in which begins take only these claims, the slot has at most one open session. */
  ghost predicate StaysSingle(checked: bool, claims: iset<Claim>, slot: Slot)
  {
    forall ids, w, at, schedule, k ::
      Genuine(checked, ids, w, schedule, at) && Takes(w, schedule, claims) && 0 <= k <= |schedule| ==>
        Single(Run(w, schedule)[k].disk, slot)
  }

  /** The same over every run from an initial world, whatever the clock, the executor and the snapshots do. */
  ghost predicate AlwaysSingle(claims: iset<Claim>, slot: Slot)
  {
    forall w, schedule, k ::
      Initial(w) && Takes(w, schedule, claims) && 0 <= k <= |schedule| ==> Single(Run(w, schedule)[k].disk, slot)
  }

  // ----- what a genuine run is about

  /** Evidence documents can name the slot's incident and its target. */
  predicate Describable(slot: Slot)
  {
    slot.incident != "" && ConceptText(slot.target)
  }

  ghost predicate NamesConcepts(rs: seq<Recommendation>)
  {
    forall k :: 0 <= k < |rs| ==> ConceptText(rs[k].target)
  }

  /** What a process carries along names concepts. */
  ghost predicate CarriesConcepts(q: Proc)
  {
    match q
    case InBegin(b) =>
      && (TaskOf(b).Some? ==> ConceptText(TaskOf(b).value.target))
      && (b.TakesClaim? ==> ConceptText(b.task.target))
      && (b.LoadsEvidence? ==> NamesConcepts(b.snapshot.recommended))
      && (b.ReloadsEvidence? ==> NamesConcepts(b.snapshot.recommended))
    case InFinish(f) => f.WritesEvidence? ==> ConceptText(f.produced.observation)
    case _ => true
  }

  ghost predicate DiskConcepts(d: Disk)
  {
    && (forall i :: i in d.evidence.instances ==> ConceptText(d.evidence.instances[i].observation))
    && NamesConcepts(d.snapshot.recommended)
    && forall x :: x in d.files.bindings && d.files.bindings[x].Good? ==> ConceptText(d.files.bindings[x].doc.target)
  }

  /** Every observation and target anywhere is a concept. */
  ghost predicate Concepts(w: World)
  {
    w.disk.evidence.incident != "" && DiskConcepts(w.disk) && forall p :: CarriesConcepts(w.At(p))
  }

  lemma FollowsConcepts(rs: seq<Recommendation>, e: Evidence, now: int)
    requires Follows(rs, e, now)
    requires forall i :: i in e.instances ==> ConceptText(e.instances[i].observation)
    ensures NamesConcepts(rs)
  {
    hide ConceptText;
    forall k | 0 <= k < |rs| ensures ConceptText(rs[k].target) {
      assert Recommended(rs, rs[k].scope, rs[k].target);
      assert Diagnosed(e, rs[k].scope, rs[k].target, now);
    }
  }

  /** A step outside a finish that binds only sessions of plans for concepts keeps the disk's concepts. */
  lemma FilesConcepts(w: World, p: Pid, w': World)
    requires FilesStep(w, p, w') && CarriesConcepts(w.At(p)) && DiskConcepts(w.disk)
    requires w'.disk.evidence == w.disk.evidence && w'.disk.snapshot == w.disk.snapshot
    ensures DiskConcepts(w'.disk)
  {
    hide ConceptText;
    hide NamesConcepts;
    if WroteBinding(w, p, w') { assert ConceptText(w.At(p).b.plan.task.target); }
  }

  lemma BeginDocuments(w: World, p: Pid, b: BeginPoint, o: Outside)
    requires w.At(p) == InBegin(b)
    ensures var d := AdvanceBegin(w, p, b, o).disk; d.evidence == w.disk.evidence && d.snapshot == w.disk.snapshot
  {
    hide FindRecommendation;
    hide Reconciliation.Relevant;
    hide Reconciliation.Resolved;
  }

  predicate Early(b: BeginPoint)
  {
    b.LoadsSnapshot? || b.LoadsEvidence? || b.TakesClaim? || b.ReloadsSnapshot? || b.ReloadsEvidence?
  }

  lemma EarlyConcepts(w: World, p: Pid, b: BeginPoint, o: Outside)
    requires w.At(p) == InBegin(b) && Early(b) && CarriesConcepts(w.At(p)) && NamesConcepts(w.disk.snapshot.recommended)
    ensures CarriesConcepts(AdvanceBegin(w, p, b, o).At(p))
  {
    hide ConceptText;
  }

  lemma LateEnds(w: World, p: Pid, b: BeginPoint, o: Outside)
    requires w.At(p) == InBegin(b) && !Early(b)
    ensures var q := AdvanceBegin(w, p, b, o).At(p); !q.InFinish? && (q.InBegin? ==> PlanOf(q.b).Some?)
  {
    hide FindRecommendation;
    hide Reconciliation.Relevant;
    hide Reconciliation.Resolved;
  }

  lemma BeginConcepts(w: World, p: Pid, b: BeginPoint, o: Outside)
    requires w.At(p) == InBegin(b) && CarriesConcepts(w.At(p)) && DiskConcepts(w.disk)
    ensures DiskConcepts(AdvanceBegin(w, p, b, o).disk) && CarriesConcepts(AdvanceBegin(w, p, b, o).At(p))
  {
    hide ConceptText;
    hide NamesConcepts;
    hide AdvanceBegin;
    BeginFiles(w, p, b, o);
    BeginDocuments(w, p, b, o);
    FilesConcepts(w, p, AdvanceBegin(w, p, b, o));
    hide FilesStep;
    if Early(b) {
      EarlyConcepts(w, p, b, o);
    } else {
      PlanKept(w, p, b, o);
      LateEnds(w, p, b, o);
    }
  }

  lemma FinishEvidenceConcepts(ids: Ids, w: World, p: Pid, f: FinishPoint, o: Outside)
    requires w.At(p) == InFinish(f) && CarriesConcepts(w.At(p)) && FinishKnows(w.disk, f)
    requires f.Evaluates? || f.WritesEvidence?
    requires forall i :: i in w.disk.evidence.instances ==> ConceptText(w.disk.evidence.instances[i].observation)
    requires Plausible(true, ids, w, Action(p, Continue(o)))
    ensures var w' := AdvanceFinish(w, p, f, o);
            && CarriesConcepts(w'.At(p)) && w'.disk.snapshot == w.disk.snapshot
            && forall i :: i in w'.disk.evidence.instances ==> ConceptText(w'.disk.evidence.instances[i].observation)
  {
    hide ConceptText;
    hide Follows;
    hide EvidenceText;
    hide InstanceOf;
  }

  lemma FinishSnapshotConcepts(ids: Ids, w: World, p: Pid, f: FinishPoint, o: Outside)
    requires w.At(p) == InFinish(f) && f.WritesSnapshot? && FinishKnows(w.disk, f) && DiskConcepts(w.disk)
    requires Plausible(true, ids, w, Action(p, Continue(o)))
    ensures var w' := AdvanceFinish(w, p, f, o);
            NamesConcepts(w'.disk.snapshot.recommended) && w'.disk.evidence == w.disk.evidence
            && CarriesConcepts(w'.At(p))
  {
    FollowsConcepts(o.recommended, f.evidence, o.now);
    hide ConceptText;
    hide Follows;
  }

  lemma FinishElsewhere(w: World, p: Pid, f: FinishPoint, o: Outside)
    requires w.At(p) == InFinish(f) && !f.Evaluates? && !f.WritesEvidence? && !f.WritesSnapshot?
    ensures var w' := AdvanceFinish(w, p, f, o);
            && w'.disk.evidence == w.disk.evidence && w'.disk.snapshot == w.disk.snapshot
            && !w'.At(p).InBegin? && (w'.At(p).InFinish? ==> !w'.At(p).f.WritesEvidence?)
  {
    hide InstanceOf;
    hide Completed;
    hide Ambiguous;
  }

  lemma FinishKeepsFiles(w: World, p: Pid, f: FinishPoint, o: Outside)
    requires w.At(p) == InFinish(f)
    ensures AdvanceFinish(w, p, f, o).disk.files == w.disk.files
  {
    hide InstanceOf;
    hide Completed;
    hide Ambiguous;
  }

  lemma FinishConcepts(ids: Ids, w: World, p: Pid, f: FinishPoint, o: Outside)
    requires w.At(p) == InFinish(f) && CarriesConcepts(w.At(p)) && DiskConcepts(w.disk) && FinishKnows(w.disk, f)
    requires Plausible(true, ids, w, Action(p, Continue(o)))
    ensures DiskConcepts(AdvanceFinish(w, p, f, o).disk) && CarriesConcepts(AdvanceFinish(w, p, f, o).At(p))
  {
    hide ConceptText;
    hide NamesConcepts;
    hide AdvanceFinish;
    hide Plausible;
    hide FinishKnows;
    FinishKeepsFiles(w, p, f, o);
    if f.WritesSnapshot? {
      FinishSnapshotConcepts(ids, w, p, f, o);
    } else if f.Evaluates? || f.WritesEvidence? {
      FinishEvidenceConcepts(ids, w, p, f, o);
    } else {
      FinishElsewhere(w, p, f, o);
    }
  }

  /** Neither file is written, and nothing is carried into a begin or a finish but its call. */
  ghost predicate Elsewhere(w: World, p: Pid, w': World)
  {
    && w'.disk.evidence == w.disk.evidence && w'.disk.snapshot == w.disk.snapshot
    && (w'.At(p) != w.At(p) ==>
          && (w'.At(p).InBegin? ==> w'.At(p).b.LoadsSnapshot?)
          && (w'.At(p).InFinish? ==> w'.At(p).f.FindsIncident?))
  }

  lemma AbandonElsewhere(w: World, p: Pid, a: AbandonPoint, o: Outside)
    requires w.At(p) == InAbandon(a)
    ensures Elsewhere(w, p, AdvanceAbandon(w, p, a, o))
  {
    hide Completed;
    hide Ambiguous;
  }

  lemma RecoverElsewhere(w: World, p: Pid, r: RecoverPoint, o: Outside)
    requires w.At(p) == InRecover(r)
    ensures Elsewhere(w, p, AdvanceRecover(w, p, r, o))
  {
    hide Reconciliation.Unresolved;
  }

  lemma RecordElsewhere(w: World, p: Pid, j: RecordPoint, o: Outside)
    requires w.At(p) == InRecord(j)
    ensures Elsewhere(w, p, AdvanceRecord(w, p, j, o))
  {
    hide Journal.Decide;
  }

  lemma OtherDocuments(w: World, p: Pid, m: Move)
    requires m.Continue? ==> !w.At(p).InBegin? && !w.At(p).InFinish?
    ensures Elsewhere(w, p, Step(w, p, m))
  {
    hide AdvanceBegin;
    hide AdvanceFinish;
    hide AdvanceAbandon;
    hide AdvanceRecover;
    hide AdvanceRecord;
    if m.Continue? {
      match w.At(p) {
        case Idle =>
        case InAbandon(a) => AbandonElsewhere(w, p, a, m.outside);
        case InRecover(r) => RecoverElsewhere(w, p, r, m.outside);
        case InRecord(j) => RecordElsewhere(w, p, j, m.outside);
      }
    }
  }

  lemma OtherConcepts(w: World, p: Pid, m: Move)
    requires m.Continue? ==> !w.At(p).InBegin? && !w.At(p).InFinish?
    requires CarriesConcepts(w.At(p)) && DiskConcepts(w.disk)
    ensures DiskConcepts(Step(w, p, m).disk) && CarriesConcepts(Step(w, p, m).At(p))
  {
    hide ConceptText;
    hide NamesConcepts;
    hide Step;
    OtherDocuments(w, p, m);
    StepFiles(w, p, m);
    FilesConcepts(w, p, Step(w, p, m));
  }

  lemma StepConcepts(ids: Ids, w: World, p: Pid, m: Move)
    requires Invariant(w) && Concepts(w) && Plausible(true, ids, w, Action(p, m))
    ensures Concepts(Step(w, p, m))
  {
    hide Fair;
    hide Entitled;
    hide DiskOk;
    hide ClaimsAgree;
    hide OwnersDiffer;
    hide FilesOk;
    hide OutcomesOk;
    hide JournalOk;
    hide DiskConcepts;
    hide CarriesConcepts;
    hide Plausible;
    hide AdvanceBegin;
    hide AdvanceFinish;
    hide AdvanceAbandon;
    hide AdvanceRecover;
    hide AdvanceRecord;
    assert Knows(w.disk, w.used, w.At(p));
    if m.Continue? && w.At(p).InBegin? {
      BeginConcepts(w, p, w.At(p).b, m.outside);
    } else if m.Continue? && w.At(p).InFinish? {
      FinishConcepts(ids, w, p, w.At(p).f, m.outside);
    } else {
      OtherConcepts(w, p, m);
    }
    StepSound(w, p, m);
    OthersStay(w, p, Step(w, p, m));
  }

  lemma {:induction false} RunConcepts(ids: Ids, w: World, schedule: seq<Action>, k: nat)
    requires Invariant(w) && Concepts(w) && k <= |schedule|
    requires forall i :: 0 <= i < |schedule| ==> Plausible(true, ids, Run(w, schedule)[i], schedule[i])
    ensures Invariant(Run(w, schedule)[k]) && Concepts(Run(w, schedule)[k])
    decreases |schedule|
  {
    hide Invariant;
    hide Concepts;
    hide Step;
    hide Plausible;
    if k > 0 {
      var w' := Step(w, schedule[0].pid, schedule[0].move);
      assert Run(w, schedule)[0] == w && schedule[0] == Action(schedule[0].pid, schedule[0].move);
      StepKeeps(w, schedule[0].pid, schedule[0].move);
      StepConcepts(ids, w, schedule[0].pid, schedule[0].move);
      forall i | 0 <= i < |schedule[1..]| ensures Plausible(true, ids, Run(w', schedule[1..])[i], schedule[1..][i]) {
        assert Run(w, schedule)[i + 1] == Run(w', schedule[1..])[i];
      }
      RunConcepts(ids, w', schedule[1..], k - 1);
    }
  }

  /** In a genuine run no session is bound in a slot that evidence cannot name. */
  lemma {:induction false} NothingIndescribable(ids: Ids, w: World, schedule: seq<Action>, at: int, k: nat, slot: Slot)
    requires Genuine(true, ids, w, schedule, at) && k <= |schedule| && !Describable(slot)
    ensures forall x :: !OpenIn(Run(w, schedule)[k].disk, x, slot)
  {
    StartConcepts(w, at);
    InitialInvariant(w);
    RunConcepts(ids, w, schedule, k);
    var v := Run(w, schedule)[k];
    assert FilesOk(v.disk, v.used) && DiskConcepts(v.disk);
    forall x ensures !OpenIn(v.disk, x, slot) {
      if x in v.disk.files.bindings { assert BindingOk(v.disk, x); }
    }
  }

  lemma StartConcepts(w: World, at: int)
    requires Starts(true, w, at)
    ensures Concepts(w)
  {
    FollowsConcepts(w.disk.snapshot.recommended, w.disk.evidence, at);
  }
}
