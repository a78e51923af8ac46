/** Where every document on disk comes from: recommendations, executor results and clock readings of the run. */
module ProbeOrigins {
  import opened Prelude
  import opened SessionFiles
  import Reconciliation
  import Journal
  import opened ProbeProtocol
  import opened ProbeWrites
  import opened ProbeInvariant
  import opened ProbeSteps
  import opened ProbeSafety
  import opened ProbeTheorems
  import opened ProbeSlots
  import opened ProbeRecovery
  import opened ProbeReaders

  /** The evidence, used ids and age limit a run started with, the snapshots it went through, and all outside input. */
  datatype Past = Past(evidence: Evidence, used: set<string>, maxAge: nat, snapshots: iset<Snapshot>,
                       inputs: iset<Outside>)

  ghost function PastOf(w: World, schedule: seq<Action>, k: nat): Past
    requires k <= |schedule|
  {
    Past(w.disk.evidence, w.used, w.maxAge,
         iset j | 0 <= j <= k :: Run(w, schedule)[j].disk.snapshot,
         iset j | 0 <= j < k && schedule[j].move.Continue? :: schedule[j].move.outside)
  }

  ghost predicate Extends(a: Past, b: Past)
  {
    && a.evidence == b.evidence && a.used == b.used && a.maxAge == b.maxAge
    && a.snapshots <= b.snapshots && a.inputs <= b.inputs
  }

  // ----- origins

  /** Of the snapshot's recommendations, exactly this one is for the target in the scope. */
  ghost predicate Advises(s: Snapshot, r: Recommendation)
  {
    exists i: nat :: OnlyFits(s.recommended, r.target, r.scope, i) && s.recommended[i] == r
  }

  ghost predicate Advised(past: Past, incident: string, revision: nat, r: Recommendation)
  {
    exists s :: s in past.snapshots && s.incident == incident && s.revision == revision && Advises(s, r)
  }

  /** The session was recommended as read-only, and is a successful capture's, under its id and at its time. */
  ghost predicate SessionTraced(past: Past, x: string, s: SessionDoc)
  {
    && x !in past.used && s.sessionId == x && s.executor == s.probe
    && Captured(past, x, s.startedAt)
    && exists target, revision :: Advised(past, s.incident, revision, Recommendation(s.scope, target, s.probe, true))
  }

  ghost predicate Captured(past: Past, x: string, at: int)
  {
    exists o :: o in past.inputs && o.succeeds && o.newId == x && o.now == at
  }

  /** Exactly one recommendation of the snapshot of that revision was for the target and scope: this read-only probe. */
  ghost predicate BindingTraced(past: Past, x: string, b: BindingDoc)
  {
    && b.sessionId == x
    && Advised(past, b.incident, b.revision, Recommendation(b.scope, b.target, b.probe, true))
  }

  ghost predicate Clocked(past: Past, at: int)
  {
    exists o :: o in past.inputs && o.now == at
  }

  ghost predicate AbandonmentTraced(past: Past, d: Disk, x: string, a: AbandonmentDoc)
  {
    a.sessionId == x && a.incident == d.evidence.incident && Clocked(past, a.abandonedAt)
  }

  /** It is about the session's one file, and names that file's incident. */
  ghost predicate MarkerTraced(past: Past, d: Disk, x: string, m: MarkerDoc)
  {
    && x in d.files.sessions && d.files.sessions[x].Good?
    && m.sessionId == x && m.kind == OrphanSession && m.fingerprint == Fingerprint(x, LoneSession(d.files.sessions[x]))
    && m.incident == (if d.evidence.incident == "" then None else Some(d.evidence.incident))
    && Clocked(past, m.reconciledAt)
  }

  /** Observed no sooner than the session on disk started, and less than the maximal age later. */
  ghost predicate InTime(files: Files, maxAge: nat, x: Instance)
  {
    && x.session.Some? && x.session.value in files.sessions && files.sessions[x.session.value].Good?
    && var s := files.sessions[x.session.value].doc;
       s.startedAt <= x.observedAt < s.startedAt + maxAge && x.scope == s.scope
  }

  /** A successful executor's result, labelled with the session, its scope and the time of its evaluation. */
  ghost predicate Produced(past: Past, x: Instance)
  {
    exists o :: o in past.inputs && o.succeeds &&
                x == o.instance.(session := x.session, scope := x.scope, observedAt := o.now)
  }

  // ----- what the journal tells

  /** The report agrees with the files and the evidence. */
  ghost predicate Tells(d: Disk, kind: Journal.EventType, sid: string, report: Report)
  {
    match kind
    case Begin =>
      && sid in d.files.sessions && d.files.sessions[sid].Good?
      && sid in d.files.bindings && d.files.bindings[sid].Good?
      && var (s, b) := (d.files.sessions[sid].doc, d.files.bindings[sid].doc);
         report == Began(b.target, b.scope, s.startedAt, b.revision)
    case Finish =>
      && sid in d.files.bindings && d.files.bindings[sid].Good?
      && report.Finished? && report.target == d.files.bindings[sid].doc.target
      && report.scope == d.files.bindings[sid].doc.scope
      && report.instance in d.evidence.instances && d.evidence.instances[report.instance].session == Some(sid)
    case Abandon =>
      && sid in d.files.bindings && d.files.bindings[sid].Good?
      && sid in d.files.abandoned && d.files.abandoned[sid].Good?
      && var b := d.files.bindings[sid].doc;
         report == GaveUp(b.target, b.scope, d.files.abandoned[sid].doc.abandonedAt)
    case Reconcile =>
      && sid in d.files.reconciled && d.files.reconciled[sid].Good?
      && var m := d.files.reconciled[sid].doc;
         report == Discarded(m.incident, m.kind, m.fingerprint, m.reconciledAt)
  }

  ghost predicate EntryTells(d: Disk, e: Entry)
  {
    Tells(d, e.kind, e.session, e.data) && e.incident == d.evidence.incident
  }

  // ----- the invariant

  ghost predicate FilesTraced(past: Past, d: Disk)
  {
    && (forall x :: x in d.files.sessions ==>
          d.files.sessions[x].Good? && SessionTraced(past, x, d.files.sessions[x].doc))
    && (forall x :: x in d.files.bindings ==>
          d.files.bindings[x].Good? && BindingTraced(past, x, d.files.bindings[x].doc))
  }

  ghost predicate MarkersTraced(past: Past, d: Disk)
  {
    && (forall x :: x in d.files.abandoned ==>
          d.files.abandoned[x].Good? && AbandonmentTraced(past, d, x, d.files.abandoned[x].doc))
    && (forall x :: x in d.files.reconciled ==>
          d.files.reconciled[x].Good? && MarkerTraced(past, d, x, d.files.reconciled[x].doc))
  }

  /** The snapshots are all of the incident of the evidence, or none is. */
  ghost predicate AllOrNone(past: Past, d: Disk)
  {
    || (forall s :: s in past.snapshots ==> s.incident == d.evidence.incident)
    || (forall s :: s in past.snapshots ==> s.incident != d.evidence.incident)
  }

  ghost predicate EvidenceTraced(past: Past, d: Disk, maxAge: nat)
  {
    && d.snapshot in past.snapshots && AllOrNone(past, d)
    && past.evidence.instances.Keys <= d.evidence.instances.Keys
    && forall i :: i in d.evidence.instances ==>
         if i in past.evidence.instances then d.evidence.instances[i] == past.evidence.instances[i]
         else InTime(d.files, maxAge, d.evidence.instances[i]) && Produced(past, d.evidence.instances[i])
  }

  ghost predicate JournalTraced(past: Past, d: Disk)
  {
    && (forall i :: 0 <= i < |d.journal| ==> EntryTells(d, d.journal[i]))
    && (d.evidence.incident == "" ==> d.journal == [])
  }

  ghost predicate DiskTraced(past: Past, d: Disk, maxAge: nat)
  {
    FilesTraced(past, d) && MarkersTraced(past, d) && EvidenceTraced(past, d, maxAge) && JournalTraced(past, d)
  }

  ghost predicate PlanTraced(past: Past, plan: Plan)
  {
    Advised(past, plan.incident, plan.revision, Recommendation(plan.scope, plan.task.target, plan.probe, plan.readOnly))
  }

  /** The session is bound to the plan's target and scope, and was not found completed. */
  ghost predicate Clashes(d: Disk, plan: Plan, completed: set<string>, x: string)
  {
    && x in d.files.bindings && d.files.bindings[x].Good? && x !in completed
    && d.files.bindings[x].doc.target == plan.task.target && d.files.bindings[x].doc.scope == plan.scope
  }

  predicate Examines(b: BeginPoint)
  {
    b.LoadsBinding? || b.LoadsSession? || b.LoadsAbandonment?
  }

  /** A scan only ever finds sessions without a binding. */
  ghost predicate ScanTraced(d: Disk, orphans: map<string, IssueKind>)
  {
    forall x :: x in orphans ==> orphans[x] == OrphanSession && x in d.files.sessions
  }

  /** A begin's plan was recommended; what it has written is what it planned. */
  ghost predicate BeginTraced(past: Past, d: Disk, b: BeginPoint)
  {
    && (b.LoadsEvidence? || b.ReloadsEvidence? ==> b.snapshot in past.snapshots)
    && (b.ScansOrphans? || b.ScansMarker? ==> ScanTraced(d, b.orphans))
    && (b.ScansMarker? ==>
          b.issue.sessionId in d.files.sessions &&
          b.issue == Reconciliation.IssueFor(b.issue.sessionId, LoneSession(d.files.sessions[b.issue.sessionId])))
    && (Examines(b) ==>
          b.todo <= d.files.bindings.Keys && (b.clash ==> exists x :: Clashes(d, b.plan, b.completed, x)))
    && (b.LoadsAbandonment? ==> b.sid !in b.completed)
    && (PlanOf(b).Some? ==> PlanTraced(past, PlanOf(b).value))
    && (b.ChecksUnused? || b.WritesSession? || b.WritesBinding? ==>
          b.plan.readOnly && b.sid !in past.used && Captured(past, b.sid, b.startedAt))
    && (b.WritesBinding? || b.BeginReturns? ==>
          b.sid in d.files.sessions && d.files.sessions[b.sid] == Good(Begun(b.plan, b.sid, b.startedAt)))
    && (b.BeginReturns? ==> b.sid in d.files.bindings && d.files.bindings[b.sid] == Good(Bound(b.plan, b.sid)))
  }

  /** A finish carries what it has read; what it is about to add is in time. */
  ghost predicate FinishTraced(past: Past, d: Disk, maxAge: nat, f: FinishPoint)
  {
    && (!(f.FindsIncident? || f.TakesIncident? || f.TakesSession? || f.FinishBinding?) ==>
          f.sid in d.files.bindings && d.files.bindings[f.sid] == Good(f.binding))
    && (f.FinishEvidence? || f.FinishSnapshot? || f.FinishAbandonment? || f.Evaluates? ==>
          f.sid in d.files.sessions && d.files.sessions[f.sid] == Good(f.session))
    && (f.WritesEvidence? ==> InTime(d.files, maxAge, f.produced) && Produced(past, f.produced))
  }

  ghost predicate AbandonTraced(past: Past, d: Disk, a: AbandonPoint)
  {
    && (!(a.FindsClaim? || a.TakesAbandonClaim? || a.AbandonBinding?) ==>
          a.sid in d.files.bindings && d.files.bindings[a.sid] == Good(a.binding))
    && (a.AbandonSnapshot? ==>
          && a.evidence.incident == d.evidence.incident
          && (Completed(a.evidence, a.sid) ==> Completed(d.evidence, a.sid)))
    && (a.AbandonReturns? ==>
          a.sid in d.files.abandoned && d.files.abandoned[a.sid].Good? &&
          d.files.abandoned[a.sid].doc.abandonedAt == a.abandonedAt)
  }

  /** A reconciliation writes one marker for the session's file, where there is none. */
  ghost predicate RecoverTraced(past: Past, d: Disk, r: RecoverPoint)
  {
    && (!(r.TakesRecovery? || r.RecoverSnapshot?) ==>
          exists s :: s in past.snapshots && s.incident == r.incident)
    && (r.WritesMarker? ==>
          r.sid !in d.files.reconciled && r.sid in d.files.sessions &&
          r.issue == Reconciliation.IssueFor(r.sid, LoneSession(d.files.sessions[r.sid])))
    && (r.RecoverReturns? ==> r.sid in d.files.reconciled && d.files.reconciled[r.sid] == Good(r.marker))
  }

  ghost predicate RecordTraced(past: Past, d: Disk, j: RecordPoint)
  {
    match j
    case RecordSnapshot(kind, sid, incident, report) =>
      && Tells(d, kind, sid, report) && sid in d.files.sessions
      && (incident == Some(d.evidence.incident) || (incident.None? && d.evidence.incident == ""))
    case _ => EntryTells(d, j.entry) && (j.AppendsEvent? ==> j.entry.incident != "")
  }

  ghost predicate ProcTraced(past: Past, d: Disk, maxAge: nat, proc: Proc)
  {
    match proc
    case Idle => true
    case InBegin(b) => BeginTraced(past, d, b)
    case InFinish(f) => FinishTraced(past, d, maxAge, f)
    case InAbandon(a) => AbandonTraced(past, d, a)
    case InRecover(r) => RecoverTraced(past, d, r)
    case InRecord(j) => RecordTraced(past, d, j)
  }

  ghost predicate Traced(past: Past, w: World)
  {
    && past.used <= w.used && past.maxAge == w.maxAge && DiskTraced(past, w.disk, w.maxAge)
    && forall p :: ProcTraced(past, w.disk, w.maxAge, w.At(p))
  }

  /** The past after a step holds its snapshot, and what came from outside. */
  ghost predicate After(past: Past, past': Past, m: Move, w': World)
  {
    && Extends(past, past') && (m.Continue? ==> m.outside in past'.inputs)
    && w'.disk.snapshot in past'.snapshots && past'.snapshots <= past.snapshots + iset{w'.disk.snapshot}
  }

  // ----- origins are kept

  lemma AdvisedKept(past: Past, past': Past, incident: string, revision: nat, r: Recommendation)
    requires Extends(past, past') && Advised(past, incident, revision, r)
    ensures Advised(past', incident, revision, r)
  {
    hide Advises;
    var s :| s in past.snapshots && s.incident == incident && s.revision == revision && Advises(s, r);
    assert s in past'.snapshots;
  }

  lemma SessionTracedKept(past: Past, past': Past, x: string, s: SessionDoc)
    requires Extends(past, past') && SessionTraced(past, x, s)
    ensures SessionTraced(past', x, s)
  {
    hide Advised;
    CapturedKept(past, past', x, s.startedAt);
    hide Captured;
    var target, revision :| Advised(past, s.incident, revision, Recommendation(s.scope, target, s.probe, true));
    AdvisedKept(past, past', s.incident, revision, Recommendation(s.scope, target, s.probe, true));
  }

  lemma CapturedKept(past: Past, past': Past, x: string, at: int)
    requires Extends(past, past') && Captured(past, x, at)
    ensures Captured(past', x, at)
  {
    var o :| o in past.inputs && o.succeeds && o.newId == x && o.now == at;
    assert o in past'.inputs;
  }

  lemma ClockedKept(past: Past, past': Past, at: int)
    requires Extends(past, past') && Clocked(past, at)
    ensures Clocked(past', at)
  {
    var o :| o in past.inputs && o.now == at;
    assert o in past'.inputs;
  }

  lemma ProducedKept(past: Past, past': Past, x: Instance)
    requires Extends(past, past') && Produced(past, x)
    ensures Produced(past', x)
  {
    var o :| o in past.inputs && o.succeeds &&
             x == o.instance.(session := x.session, scope := x.scope, observedAt := o.now);
    assert o in past'.inputs;
  }

  // ----- the disk after a step

  /** What one step does to disk and past, as the lemmas below need it. */
  ghost predicate Moves(past: Past, w: World, past': Past, w': World, p: Pid)
  {
    && Extends(past, past')
    && w'.disk.snapshot in past'.snapshots && past'.snapshots <= past.snapshots + iset{w'.disk.snapshot}
    && Grows(w.disk, w.used, w'.disk, w'.used) && FilesStep(w, p, w')
  }

  lemma SessionsKept(past: Past, w: World, past': Past, w': World, p: Pid, x: string)
    requires Moves(past, w, past', w', p) && FilesTraced(past, w.disk) && ProcTraced(past, w.disk, w.maxAge, w.At(p))
    requires x in w'.disk.files.sessions
    ensures w'.disk.files.sessions[x].Good? && SessionTraced(past', x, w'.disk.files.sessions[x].doc)
  {
    hide SessionTraced;
    hide BindingTraced;
    hide Advised;
    hide Captured;
    hide Clocked;
    if x in w.disk.files.sessions {
      SessionTracedKept(past, past', x, w.disk.files.sessions[x].doc);
    } else {
      assert WroteSession(w, p, w');
      var b := w.At(p).b;
      NewSession(past, b.plan, b.sid, b.startedAt);
      SessionTracedKept(past, past', x, Begun(b.plan, b.sid, b.startedAt));
    }
  }

  lemma NewSession(past: Past, plan: Plan, sid: string, startedAt: int)
    requires PlanTraced(past, plan) && plan.readOnly && sid !in past.used && Captured(past, sid, startedAt)
    ensures SessionTraced(past, sid, Begun(plan, sid, startedAt))
  {
    hide Advised;
    hide Captured;
  }

  lemma BindingsKept(past: Past, w: World, past': Past, w': World, p: Pid, x: string)
    requires Moves(past, w, past', w', p) && FilesTraced(past, w.disk) && ProcTraced(past, w.disk, w.maxAge, w.At(p))
    requires x in w'.disk.files.bindings
    ensures w'.disk.files.bindings[x].Good? && BindingTraced(past', x, w'.disk.files.bindings[x].doc)
  {
    hide SessionTraced;
    hide Advised;
    hide Captured;
    hide Clocked;
    if x in w.disk.files.bindings {
      var b := w.disk.files.bindings[x].doc;
      AdvisedKept(past, past', b.incident, b.revision, Recommendation(b.scope, b.target, b.probe, true));
    } else {
      assert WroteBinding(w, p, w');
      var plan := w.At(p).b.plan;
      AdvisedKept(past, past', plan.incident, plan.revision,
                  Recommendation(plan.scope, plan.task.target, plan.probe, true));
    }
  }

  lemma FilesStayTraced(past: Past, w: World, past': Past, w': World, p: Pid)
    requires Moves(past, w, past', w', p) && FilesTraced(past, w.disk) && ProcTraced(past, w.disk, w.maxAge, w.At(p))
    ensures FilesTraced(past', w'.disk)
  {
    hide Moves;
    hide ProcTraced;
    hide SessionTraced;
    hide BindingTraced;
    forall x | x in w'.disk.files.sessions
      ensures w'.disk.files.sessions[x].Good? && SessionTraced(past', x, w'.disk.files.sessions[x].doc) {
      SessionsKept(past, w, past', w', p, x);
    }
    forall x | x in w'.disk.files.bindings
      ensures w'.disk.files.bindings[x].Good? && BindingTraced(past', x, w'.disk.files.bindings[x].doc) {
      BindingsKept(past, w, past', w', p, x);
    }
  }

  /** Whoever writes a marker or an abandonment says the time. */
  ghost predicate SaysTime(past': Past, w: World, p: Pid, w': World)
  {
    && (WroteAbandonment(w, p, w') ==>
          Clocked(past', w'.At(p).a.abandonedAt) && w.At(p).a.binding.incident == w.disk.evidence.incident)
    && (WroteMarker(w, p, w') ==>
          w'.At(p).r.marker == Reconciliation.MarkerFor(w.At(p).r.issue, w'.At(p).r.marker.reconciledAt).doc &&
          Clocked(past', w'.At(p).r.marker.reconciledAt))
  }

  lemma AbandonmentsKept(past: Past, w: World, past': Past, w': World, p: Pid, x: string)
    requires Moves(past, w, past', w', p) && MarkersTraced(past, w.disk) && SaysTime(past', w, p, w')
    requires x in w'.disk.files.abandoned
    ensures w'.disk.files.abandoned[x].Good? && AbandonmentTraced(past', w'.disk, x, w'.disk.files.abandoned[x].doc)
  {
    hide MarkerTraced;
    if x in w.disk.files.abandoned {
      ClockedKept(past, past', w.disk.files.abandoned[x].doc.abandonedAt);
    } else {
      assert WroteAbandonment(w, p, w');
    }
    hide Clocked;
  }

  lemma MarkersKept(past: Past, w: World, past': Past, w': World, p: Pid, x: string)
    requires Moves(past, w, past', w', p) && MarkersTraced(past, w.disk) && SaysTime(past', w, p, w')
    requires FilesOk(w.disk, w.used) && ProcTraced(past, w.disk, w.maxAge, w.At(p)) && x in w'.disk.files.reconciled
    ensures w'.disk.files.reconciled[x].Good? && MarkerTraced(past', w'.disk, x, w'.disk.files.reconciled[x].doc)
  {
    hide AbandonmentTraced;
    hide Captured;
    hide Advised;
    hide Clocked;
    if WroteMarker(w, p, w') && x == w.At(p).r.sid {
      assert RecoverTraced(past, w.disk, w.At(p).r);
      assert SessionOk(w.disk, x);
    } else {
      assert x in w.disk.files.reconciled && w'.disk.files.reconciled[x] == w.disk.files.reconciled[x];
      ClockedKept(past, past', w.disk.files.reconciled[x].doc.reconciledAt);
    }
  }

  lemma MarkersStayTraced(past: Past, w: World, past': Past, w': World, p: Pid)
    requires Moves(past, w, past', w', p) && MarkersTraced(past, w.disk) && SaysTime(past', w, p, w')
    requires FilesOk(w.disk, w.used) && ProcTraced(past, w.disk, w.maxAge, w.At(p))
    ensures MarkersTraced(past', w'.disk)
  {
    hide Moves;
    hide ProcTraced;
    hide FilesOk;
    hide SaysTime;
    hide AbandonmentTraced;
    hide MarkerTraced;
    forall x | x in w'.disk.files.abandoned
      ensures w'.disk.files.abandoned[x].Good? && AbandonmentTraced(past', w'.disk, x, w'.disk.files.abandoned[x].doc) {
      AbandonmentsKept(past, w, past', w', p, x);
    }
    forall x | x in w'.disk.files.reconciled
      ensures w'.disk.files.reconciled[x].Good? && MarkerTraced(past', w'.disk, x, w'.disk.files.reconciled[x].doc) {
      MarkersKept(past, w, past', w', p, x);
    }
  }

  lemma InTimeKept(w: World, w': World, maxAge: nat, x: Instance)
    requires Grows(w.disk, w.used, w'.disk, w'.used) && InTime(w.disk.files, maxAge, x)
    ensures InTime(w'.disk.files, maxAge, x)
  {
  }

  /** What a step adds to the evidence. */
  ghost predicate AddsProduced(w: World, p: Pid, w': World)
  {
    forall i :: i in w'.disk.evidence.instances && i !in w.disk.evidence.instances ==>
      w.At(p).InFinish? && w.At(p).f.WritesEvidence? && w'.disk.evidence.instances[i] == w.At(p).f.produced
  }

  /** Only a snapshot of the evidence's incident is written, and only after one that was. */
  ghost predicate RebuildsItsOwn(past: Past, w: World, w': World)
  {
    w'.disk.snapshot != w.disk.snapshot ==>
      w'.disk.snapshot.incident == w.disk.evidence.incident &&
      exists s :: s in past.snapshots && s.incident == w.disk.evidence.incident
  }

  lemma EvidenceStaysTraced(past: Past, w: World, past': Past, w': World, p: Pid)
    requires Moves(past, w, past', w', p) && EvidenceTraced(past, w.disk, w.maxAge) && AddsProduced(w, p, w')
    requires ProcTraced(past, w.disk, w.maxAge, w.At(p)) && RebuildsItsOwn(past, w, w')
    ensures EvidenceTraced(past', w'.disk, w.maxAge)
  {
    hide FilesStep;
    hide InTime;
    hide Produced;
    hide Captured;
    hide Advised;
    hide Clocked;
    forall i | i in w'.disk.evidence.instances && i !in past.evidence.instances
      ensures InTime(w'.disk.files, w.maxAge, w'.disk.evidence.instances[i]) &&
              Produced(past', w'.disk.evidence.instances[i]) {
      InTimeKept(w, w', w.maxAge, w'.disk.evidence.instances[i]);
      ProducedKept(past, past', w'.disk.evidence.instances[i]);
    }
  }

  // ----- the journal after a step

  /** No marker is rewritten or removed. */
  ghost predicate MarkersGrow(d: Disk, d': Disk)
  {
    forall x :: x in d.files.reconciled ==> x in d'.files.reconciled && d'.files.reconciled[x] == d.files.reconciled[x]
  }

  lemma OnlyNewMarkers(past: Past, w: World, p: Pid, w': World)
    requires FilesStep(w, p, w') && ProcTraced(past, w.disk, w.maxAge, w.At(p))
    ensures MarkersGrow(w.disk, w'.disk)
  {
    hide Captured;
    hide Advised;
    hide InTime;
    hide Tells;
  }

  lemma TellsKept(w: World, w': World, kind: Journal.EventType, sid: string, report: Report)
    requires Grows(w.disk, w.used, w'.disk, w'.used) && MarkersGrow(w.disk, w'.disk) && Tells(w.disk, kind, sid, report)
    ensures Tells(w'.disk, kind, sid, report)
  {
  }

  lemma EntryTellsKept(w: World, w': World, e: Entry)
    requires Grows(w.disk, w.used, w'.disk, w'.used) && MarkersGrow(w.disk, w'.disk)
    requires EntryTells(w.disk, e)
    ensures EntryTells(w'.disk, e)
  {
    TellsKept(w, w', e.kind, e.session, e.data);
    hide Tells;
  }

  /** What a step adds to the journal. */
  ghost predicate AppendsEntry(w: World, p: Pid, w': World)
  {
    || w'.disk.journal == w.disk.journal
    || (w.At(p).InRecord? && w.At(p).j.AppendsEvent? && w'.disk.journal == w.disk.journal + [w.At(p).j.entry])
  }

  lemma JournalStaysTraced(past: Past, w: World, past': Past, w': World, p: Pid)
    requires Moves(past, w, past', w', p) && MarkersGrow(w.disk, w'.disk) && AppendsEntry(w, p, w')
    requires JournalTraced(past, w.disk) && ProcTraced(past, w.disk, w.maxAge, w.At(p))
    ensures JournalTraced(past', w'.disk)
  {
    assert w'.disk.evidence.incident == w.disk.evidence.incident;
    hide FilesStep;
    hide MarkersGrow;
    hide EntryTells;
    hide Grows;
    forall i | 0 <= i < |w'.disk.journal| ensures EntryTells(w'.disk, w'.disk.journal[i]) {
      EntryTellsKept(w, w', w'.disk.journal[i]);
    }
  }

  // ----- the other processes

  lemma BeginStaysTraced(past: Past, w: World, past': Past, w': World, b: BeginPoint)
    requires Extends(past, past') && Grows(w.disk, w.used, w'.disk, w'.used) && BeginTraced(past, w.disk, b)
    ensures BeginTraced(past', w'.disk, b)
  {
    hide Advised;
    hide Captured;
    if PlanOf(b).Some? {
      var plan := PlanOf(b).value;
      AdvisedKept(past, past', plan.incident, plan.revision,
                  Recommendation(plan.scope, plan.task.target, plan.probe, plan.readOnly));
    }
    if b.ChecksUnused? || b.WritesSession? || b.WritesBinding? { CapturedKept(past, past', b.sid, b.startedAt); }
    if Examines(b) && b.clash {
      var x :| Clashes(w.disk, b.plan, b.completed, x);
      assert Clashes(w'.disk, b.plan, b.completed, x);
    }
  }

  lemma FinishStaysTraced(past: Past, w: World, past': Past, w': World, maxAge: nat, f: FinishPoint)
    requires Extends(past, past') && Grows(w.disk, w.used, w'.disk, w'.used) && FinishTraced(past, w.disk, maxAge, f)
    ensures FinishTraced(past', w'.disk, maxAge, f)
  {
    hide InTime;
    hide Produced;
    if f.WritesEvidence? {
      InTimeKept(w, w', maxAge, f.produced);
      ProducedKept(past, past', f.produced);
    }
  }

  lemma AbandonStaysTraced(past: Past, w: World, past': Past, w': World, a: AbandonPoint)
    requires Grows(w.disk, w.used, w'.disk, w'.used) && AbandonTraced(past, w.disk, a)
    ensures AbandonTraced(past', w'.disk, a)
  {
    hide Completed;
    if a.AbandonSnapshot? && Completed(w.disk.evidence, a.sid) { CompletedKept(w, 0, w', a.sid); }
  }

  /** Another process cannot write the marker this one is about to write: it would hold the session's recovery claim. */
  lemma RecoverStaysTraced(past: Past, w: World, past': Past, w': World, p: Pid, q: Pid, r: RecoverPoint)
    requires Extends(past, past') && ClaimsAgree(w) && p != q && w.At(q) == InRecover(r)
    requires Grows(w.disk, w.used, w'.disk, w'.used) && MarkersGrow(w.disk, w'.disk) && FilesStep(w, p, w')
    requires RecoverTraced(past, w.disk, r)
    ensures RecoverTraced(past', w'.disk, r)
  {
    if r.WritesMarker? {
      Excluded(w, p, q, WorkflowRecovery(r.sid));
    }
    hide ClaimsAgree;
  }

  lemma RecordStaysTraced(past: Past, w: World, past': Past, w': World, j: RecordPoint)
    requires Extends(past, past') && Grows(w.disk, w.used, w'.disk, w'.used) && MarkersGrow(w.disk, w'.disk)
    requires RecordTraced(past, w.disk, j)
    ensures RecordTraced(past', w'.disk, j)
  {
    hide Tells;
    hide MarkersGrow;
    hide EntryTells;
    if j.RecordSnapshot? {
      TellsKept(w, w', j.kind, j.sid, j.report);
    } else {
      EntryTellsKept(w, w', j.entry);
    }
  }

  lemma OthersStayTraced(past: Past, w: World, past': Past, w': World, p: Pid, q: Pid)
    requires Moves(past, w, past', w', p) && MarkersGrow(w.disk, w'.disk) && ClaimsAgree(w) && p != q
    requires ProcTraced(past, w.disk, w.maxAge, w.At(q))
    ensures ProcTraced(past', w'.disk, w.maxAge, w.At(q))
  {
    hide ClaimsAgree;
    hide Grows;
    hide Extends;
    hide MarkersGrow;
    hide FilesStep;
    hide BeginTraced;
    hide FinishTraced;
    hide AbandonTraced;
    hide RecoverTraced;
    hide RecordTraced;
    match w.At(q) {
      case Idle =>
      case InBegin(b) => BeginStaysTraced(past, w, past', w', b);
      case InFinish(f) => FinishStaysTraced(past, w, past', w', w.maxAge, f);
      case InAbandon(a) => AbandonStaysTraced(past, w, past', w', a);
      case InRecover(r) => RecoverStaysTraced(past, w, past', w', p, q, r);
      case InRecord(j) => RecordStaysTraced(past, w, past', w', j);
    }
  }

  // ----- the process that moves

  /** The past with this input. */
  ghost predicate Hears(past: Past, past': Past, o: Outside)
  {
    Extends(past, past') && o in past'.inputs
  }

  lemma FoundAdvises(s: Snapshot, target: string, requested: Scope, r: Recommendation)
    requires FindRecommendation(s, target, requested) == Some(r)
    ensures Advises(s, r) && r.target == target
  {
    hide FindRecommendation;
    assert r in s.recommended && Fits(r, target, requested) && OneFits(s.recommended, target, requested);
    var i: nat :| OnlyFits(s.recommended, target, requested, i);
    assert s.recommended[i] == r;
    assert OnlyFits(s.recommended, r.target, r.scope, i);
  }

  /** Reading the snapshot, choosing and re-reading it. */
  lemma OwnEarly(past: Past, w: World, past': Past, p: Pid, b: BeginPoint, o: Outside)
    requires w.At(p) == InBegin(b) && Early(b) && BeginTraced(past, w.disk, b)
    requires Hears(past, past', o) && w.disk.snapshot in past.snapshots
    ensures var w' := AdvanceBegin(w, p, b, o); ProcTraced(past', w'.disk, w.maxAge, w'.At(p))
  {
    hide FindRecommendation;
    hide Advises;
    hide Captured;
    if b.ReloadsEvidence? {
      var found := FindRecommendation(b.snapshot, b.task.target, b.task.scope);
      if found.Some? {
        FoundAdvises(b.snapshot, b.task.target, b.task.scope, found.value);
        assert Advised(past', b.snapshot.incident, b.snapshot.revision, found.value);
      }
    }
    hide Advised;
  }

  predicate Early(b: BeginPoint)
  {
    b.LoadsSnapshot? || b.LoadsEvidence? || b.TakesClaim? || b.ReloadsSnapshot? || b.ReloadsEvidence?
  }

  predicate Late(b: BeginPoint)
  {
    b.CapturesBaseline? || b.ChecksUnused? || b.WritesSession? || b.WritesBinding? || b.BeginReturns?
  }

  predicate Scans(b: BeginPoint)
  {
    b.ListsFiles? || b.ScansOrphans? || b.ScansMarker?
  }

  lemma OwnScan(past: Past, w: World, past': Past, p: Pid, b: BeginPoint, o: Outside)
    requires w.At(p) == InBegin(b) && Scans(b) && BeginTraced(past, w.disk, b) && Hears(past, past', o)
    requires FilesOk(w.disk, w.used)
    ensures var w' := AdvanceBegin(w, p, b, o); ProcTraced(past', w'.disk, w.maxAge, w'.At(p))
  {
    hide Advised;
    hide Captured;
    hide Reconciliation.Relevant;
    hide Reconciliation.Resolved;
    hide Orphan.Incident;
    hide Orphan.Kind;
    hide SessionOk;
    hide BindingOk;
    hide AdvanceBegin';
    var plan := PlanOf(b).value;
    AdvisedKept(past, past', plan.incident, plan.revision,
                Recommendation(plan.scope, plan.task.target, plan.probe, plan.readOnly));
  }

  lemma OwnBinding(past: Past, w: World, past': Past, p: Pid, b: BeginPoint, o: Outside)
    requires w.At(p) == InBegin(b) && b.LoadsBinding? && BeginTraced(past, w.disk, b) && Hears(past, past', o)
    ensures var w' := AdvanceBegin(w, p, b, o); ProcTraced(past', w'.disk, w.maxAge, w'.At(p))
  {
    hide Clashes;
    hide Advised;
    hide Captured;
    hide ScanTraced;
    AdvisedKept(past, past', b.plan.incident, b.plan.revision,
                Recommendation(b.plan.scope, b.plan.task.target, b.plan.probe, b.plan.readOnly));
  }

  lemma OwnSession(past: Past, w: World, past': Past, p: Pid, b: BeginPoint, o: Outside)
    requires w.At(p) == InBegin(b) && b.LoadsSession? && BeginTraced(past, w.disk, b) && Hears(past, past', o)
    ensures var w' := AdvanceBegin(w, p, b, o); ProcTraced(past', w'.disk, w.maxAge, w'.At(p))
  {
    hide Clashes;
    hide Advised;
    hide Captured;
    hide ScanTraced;
    hide Paired;
    AdvisedKept(past, past', b.plan.incident, b.plan.revision,
                Recommendation(b.plan.scope, b.plan.task.target, b.plan.probe, b.plan.readOnly));
  }

  lemma OwnVerdict(past: Past, w: World, past': Past, p: Pid, b: BeginPoint, o: Outside)
    requires w.At(p) == InBegin(b) && b.LoadsAbandonment? && BeginTraced(past, w.disk, b) && Hears(past, past', o)
    requires BeginKnows(w.disk, w.used, b)
    ensures var w' := AdvanceBegin(w, p, b, o); ProcTraced(past', w'.disk, w.maxAge, w'.At(p))
  {
    assert Clashes(w.disk, b.plan, b.completed, b.sid) <==>
           b.binding.target == b.plan.task.target && b.binding.scope == b.plan.scope;
    hide Clashes;
    hide BeginKnows;
    hide Advised;
    hide Captured;
    hide ScanTraced;
    hide ValidAbandonment;
    AdvisedKept(past, past', b.plan.incident, b.plan.revision,
                Recommendation(b.plan.scope, b.plan.task.target, b.plan.probe, b.plan.readOnly));
  }

  lemma OwnLists(past: Past, w: World, past': Past, p: Pid, b: BeginPoint, o: Outside)
    requires w.At(p) == InBegin(b) && (b.LoadsCompleted? || b.ListsBindings?)
    requires BeginTraced(past, w.disk, b) && Hears(past, past', o)
    ensures var w' := AdvanceBegin(w, p, b, o); ProcTraced(past', w'.disk, w.maxAge, w'.At(p))
  {
    hide Advised;
    hide Captured;
    hide ScanTraced;
    hide Completed;
    var plan := PlanOf(b).value;
    AdvisedKept(past, past', plan.incident, plan.revision,
                Recommendation(plan.scope, plan.task.target, plan.probe, plan.readOnly));
  }

  lemma OwnLate(past: Past, w: World, past': Past, p: Pid, b: BeginPoint, o: Outside)
    requires w.At(p) == InBegin(b) && Late(b) && !b.BeginReturns? && BeginTraced(past, w.disk, b)
    requires Hears(past, past', o) && past.used <= w.used
    ensures var w' := AdvanceBegin(w, p, b, o); ProcTraced(past', w'.disk, w.maxAge, w'.At(p))
  {
    hide Advised;
    hide ScanTraced;
    hide Clashes;
    var plan := PlanOf(b).value;
    AdvisedKept(past, past', plan.incident, plan.revision,
                Recommendation(plan.scope, plan.task.target, plan.probe, plan.readOnly));
    if b.ChecksUnused? || b.WritesSession? || b.WritesBinding? { CapturedKept(past, past', b.sid, b.startedAt); }
  }

  lemma OwnReturn(past: Past, w: World, past': Past, p: Pid, b: BeginPoint, o: Outside)
    requires w.At(p) == InBegin(b) && b.BeginReturns? && BeginTraced(past, w.disk, b)
    requires BeginKnows(w.disk, w.used, b)
    ensures var w' := AdvanceBegin(w, p, b, o); ProcTraced(past', w'.disk, w.maxAge, w'.At(p))
  {
    hide Advised;
    hide Captured;
    hide ScanTraced;
    hide Clashes;
  }

  predicate Reads(f: FinishPoint)
  {
    || f.FindsIncident? || f.TakesIncident? || f.TakesSession? || f.FinishBinding? || f.FinishSession?
    || f.FinishEvidence? || f.FinishSnapshot?
  }

  lemma OwnReads(past: Past, w: World, past': Past, p: Pid, f: FinishPoint, o: Outside)
    requires w.At(p) == InFinish(f) && Reads(f) && FinishTraced(past, w.disk, w.maxAge, f)
    ensures var w' := AdvanceFinish(w, p, f, o); ProcTraced(past', w'.disk, w.maxAge, w'.At(p))
  {
    hide InTime;
    hide Produced;
  }

  lemma OwnEvaluation(past: Past, w: World, past': Past, p: Pid, f: FinishPoint, o: Outside)
    requires w.At(p) == InFinish(f) && f.Evaluates? && FinishTraced(past, w.disk, w.maxAge, f)
    requires FinishKnows(w.disk, f) && Hears(past, past', o)
    ensures var w' := AdvanceFinish(w, p, f, o); ProcTraced(past', w'.disk, w.maxAge, w'.At(p))
  {
    hide Completed;
    hide InTime;
    hide Produced;
    var w' := AdvanceFinish(w, p, f, o);
    if w'.At(p).InFinish? {
      NewResult(past', w, f.session, o);
    }
  }

  lemma NewResult(past: Past, w: World, s: SessionDoc, o: Outside)
    requires o in past.inputs && o.succeeds && s.startedAt <= o.now < s.startedAt + w.maxAge
    requires s.sessionId in w.disk.files.sessions && w.disk.files.sessions[s.sessionId] == Good(s)
    ensures var x := o.instance.(session := Some(s.sessionId), scope := s.scope, observedAt := o.now);
            InTime(w.disk.files, w.maxAge, x) && Produced(past, x)
  {
  }

  lemma OwnWrites(past: Past, w: World, past': Past, p: Pid, f: FinishPoint, o: Outside)
    requires w.At(p) == InFinish(f) && !Reads(f) && !f.Evaluates? && FinishTraced(past, w.disk, w.maxAge, f)
    requires FinishKnows(w.disk, f) && FilesOk(w.disk, w.used)
    ensures var w' := AdvanceFinish(w, p, f, o); ProcTraced(past', w'.disk, w.maxAge, w'.At(p))
  {
    hide Completed;
    hide Ambiguous;
    hide InTime;
    hide Produced;
    hide InstanceOf;
  }

  lemma OwnFinish(past: Past, w: World, past': Past, p: Pid, f: FinishPoint, o: Outside)
    requires w.At(p) == InFinish(f) && FinishTraced(past, w.disk, w.maxAge, f) && FinishKnows(w.disk, f)
    requires Hears(past, past', o) && FilesOk(w.disk, w.used)
    ensures var w' := AdvanceFinish(w, p, f, o); ProcTraced(past', w'.disk, w.maxAge, w'.At(p))
  {
    hide *;
    if Reads(f) {
      OwnReads(past, w, past', p, f, o);
    } else if f.Evaluates? {
      OwnEvaluation(past, w, past', p, f, o);
    } else {
      OwnWrites(past, w, past', p, f, o);
    }
  }

  lemma OwnAbandon(past: Past, w: World, past': Past, p: Pid, a: AbandonPoint, o: Outside)
    requires w.At(p) == InAbandon(a) && AbandonTraced(past, w.disk, a) && FilesOk(w.disk, w.used)
    ensures var w' := AdvanceAbandon(w, p, a, o); ProcTraced(past', w'.disk, w.maxAge, w'.At(p))
  {
    hide Completed;
    hide SessionOk;
  }

  lemma OwnReconciles(past: Past, w: World, past': Past, p: Pid, r: RecoverPoint, o: Outside)
    requires w.At(p) == InRecover(r) && r.Reconciles? && RecoverTraced(past, w.disk, r)
    requires FilesOk(w.disk, w.used) && MarkersTraced(past, w.disk) && Extends(past, past')
    ensures var w' := AdvanceRecover(w, p, r, o); ProcTraced(past', w'.disk, w.maxAge, w'.At(p))
  {
    hide Clocked;
    hide AbandonmentTraced;
    hide Reconciliation.Relevant;
    if r.sid in w.disk.files.reconciled {
      assert MarkerTraced(past, w.disk, r.sid, w.disk.files.reconciled[r.sid].doc);
      assert SessionOk(w.disk, r.sid);
    }
    hide MarkersTraced;
  }

  lemma OwnRecover(past: Past, w: World, past': Past, p: Pid, r: RecoverPoint, o: Outside)
    requires w.At(p) == InRecover(r) && !r.Reconciles? && RecoverTraced(past, w.disk, r)
    requires MarkersTraced(past, w.disk) && w.disk.snapshot in past.snapshots && Extends(past, past')
    ensures var w' := AdvanceRecover(w, p, r, o); ProcTraced(past', w'.disk, w.maxAge, w'.At(p))
  {
    hide Reconciliation.Unresolved;
    hide Clocked;
    hide AbandonmentTraced;
    if r.RecoverReturns? { assert MarkerTraced(past, w.disk, r.sid, r.marker); }
    hide MarkersTraced;
  }

  /** A session on disk means that all snapshots so far are of the incident of the evidence. */
  lemma OneIncident(past: Past, d: Disk, used: set<string>, maxAge: nat, x: string)
    requires FilesTraced(past, d) && EvidenceTraced(past, d, maxAge) && FilesOk(d, used) && x in d.files.sessions
    ensures d.snapshot.incident == d.evidence.incident && d.snapshot in past.snapshots
    ensures forall s :: s in past.snapshots ==> s.incident == d.evidence.incident
  {
    hide Advises;
    hide Captured;
    hide InTime;
    hide Produced;
    hide BindingTraced;
    assert SessionOk(d, x) && SessionTraced(past, x, d.files.sessions[x].doc);
    hide FilesOk;
    hide FilesTraced;
  }

  lemma OwnRecord(past: Past, w: World, past': Past, p: Pid, j: RecordPoint, o: Outside)
    requires w.At(p) == InRecord(j) && RecordTraced(past, w.disk, j) && FilesOk(w.disk, w.used)
    requires FilesTraced(past, w.disk) && EvidenceTraced(past, w.disk, w.maxAge)
    ensures var w' := AdvanceRecord(w, p, j, o); ProcTraced(past', w'.disk, w.maxAge, w'.At(p))
  {
    assert j.RecordSnapshot? ==> j.sid in w.disk.files.sessions;
    hide *;
    if j.RecordSnapshot? {
      OneIncident(past, w.disk, w.used, w.maxAge, j.sid);
      OwnReport(past, w, past', p, j, o);
    } else {
      OwnEntry(past, w, past', p, j, o);
    }
  }

  lemma OwnReport(past: Past, w: World, past': Past, p: Pid, j: RecordPoint, o: Outside)
    requires w.At(p) == InRecord(j) && j.RecordSnapshot? && RecordTraced(past, w.disk, j)
    requires w.disk.snapshot.incident == w.disk.evidence.incident
    ensures var w' := AdvanceRecord(w, p, j, o); ProcTraced(past', w'.disk, w.maxAge, w'.At(p))
  {
    hide Tells;
  }

  lemma OwnEntry(past: Past, w: World, past': Past, p: Pid, j: RecordPoint, o: Outside)
    requires w.At(p) == InRecord(j) && !j.RecordSnapshot? && RecordTraced(past, w.disk, j)
    ensures var w' := AdvanceRecord(w, p, j, o); ProcTraced(past', w'.disk, w.maxAge, w'.At(p))
  {
    hide Journal.Decide;
    hide EntryTells;
    if j.AppendsEvent? { EntryTellsKept(w, AdvanceRecord(w, p, j, o), j.entry); }
  }

  lemma SameTraced(past: Past, w: World, past': Past, p: Pid)
    requires Extends(past, past') && ProcTraced(past, w.disk, w.maxAge, w.At(p))
    ensures ProcTraced(past', w.disk, w.maxAge, w.At(p))
  {
    hide BeginTraced;
    hide FinishTraced;
    hide AbandonTraced;
    hide RecordTraced;
    assert Grows(w.disk, w.used, w.disk, w.used) && MarkersGrow(w.disk, w.disk);
    assert forall s :: s in past.snapshots ==> s in past'.snapshots;
    hide Extends;
    match w.At(p) {
      case Idle =>
      case InBegin(b) => BeginStaysTraced(past, w, past', w, b);
      case InFinish(f) => FinishStaysTraced(past, w, past', w, w.maxAge, f);
      case InAbandon(a) => AbandonStaysTraced(past, w, past', w, a);
      case InRecover(r) =>
      case InRecord(j) => RecordStaysTraced(past, w, past', w, j);
    }
  }

  lemma OwnStart(past: Past, w: World, past': Past, p: Pid, call: Call)
    requires w.At(p).Idle?
    ensures ProcTraced(past', w.disk, w.maxAge, First(call))
  {
  }

  lemma IdleTraced(past: Past, d: Disk, maxAge: nat)
    ensures ProcTraced(past, d, maxAge, Idle)
  {
  }

  lemma OwnTraced(past: Past, w: World, past': Past, p: Pid, m: Move)
    requires Invariant(w) && Traced(past, w)
    requires Extends(past, past') && (m.Continue? ==> m.outside in past'.inputs)
    ensures var w' := Step(w, p, m); ProcTraced(past', w'.disk, w.maxAge, w'.At(p))
  {
    IdleTraced(past', w.disk, w.maxAge);
    hide ProcTraced;
    assert ProcTraced(past, w.disk, w.maxAge, w.At(p));
    assert Knows(w.disk, w.used, w.At(p)) && FilesOk(w.disk, w.used);
    hide Invariant;
    hide DiskTraced;
    match m
    case Start(call) => if w.At(p).Idle? { OwnStart(past, w, past', p, call); } else { SameTraced(past, w, past', p); }
    case Crash =>
    case Continue(o) => OwnContinues(past, w, past', p, o);
  }

  lemma OwnContinues(past: Past, w: World, past': Past, p: Pid, o: Outside)
    requires Knows(w.disk, w.used, w.At(p)) && FilesOk(w.disk, w.used) && ProcTraced(past, w.disk, w.maxAge, w.At(p))
    requires DiskTraced(past, w.disk, w.maxAge) && past.used <= w.used && Hears(past, past', o)
    ensures var w' := Step(w, p, Continue(o)); ProcTraced(past', w'.disk, w.maxAge, w'.At(p))
  {
    hide AdvanceBegin;
    hide AdvanceFinish;
    hide AdvanceAbandon;
    hide AdvanceRecover;
    hide AdvanceRecord;
    hide BeginTraced;
    hide FinishTraced;
    hide AbandonTraced;
    hide RecoverTraced;
    hide RecordTraced;
    hide FilesOk;
    hide BeginKnows;
    hide FinishKnows;
    hide FilesTraced;
    hide MarkersTraced;
    hide JournalTraced;
    hide AllOrNone;
    match w.At(p) {
      case Idle =>
      case InBegin(b) =>
        if Early(b) {
          OwnEarly(past, w, past', p, b, o);
        } else if b.BeginReturns? {
          OwnReturn(past, w, past', p, b, o);
        } else if Late(b) {
          OwnLate(past, w, past', p, b, o);
        } else if Scans(b) {
          OwnScan(past, w, past', p, b, o);
        } else if b.LoadsAbandonment? {
          OwnVerdict(past, w, past', p, b, o);
        } else if b.LoadsBinding? {
          OwnBinding(past, w, past', p, b, o);
        } else if b.LoadsSession? {
          OwnSession(past, w, past', p, b, o);
        } else {
          OwnLists(past, w, past', p, b, o);
        }
      case InFinish(f) => OwnFinish(past, w, past', p, f, o);
      case InAbandon(a) => OwnAbandon(past, w, past', p, a, o);
      case InRecover(r) =>
        if r.Reconciles? { OwnReconciles(past, w, past', p, r, o); } else { OwnRecover(past, w, past', p, r, o); }
      case InRecord(j) => OwnRecord(past, w, past', p, j, o);
    }
  }

  // ----- steps and runs

  lemma MoverSaysTime(past: Past, w: World, past': Past, p: Pid, m: Move)
    requires FilesOk(w.disk, w.used) && ProcTraced(past, w.disk, w.maxAge, w.At(p))
    requires After(past, past', m, Step(w, p, m))
    ensures SaysTime(past', w, p, Step(w, p, m))
  {
    hide AdvanceBegin;
    hide AdvanceFinish;
    hide AdvanceRecord;
    hide BeginTraced;
    hide FinishTraced;
    hide RecordTraced;
    hide RecoverTraced;
  }

  lemma MoverAdds(w: World, p: Pid, m: Move)
    requires Knows(w.disk, w.used, w.At(p)) && Fair(w, p, Step(w, p, m))
    requires Entitled(w.disk, w.used, Step(w, p, m).disk, Step(w, p, m).used, w.At(p))
    ensures AddsProduced(w, p, Step(w, p, m)) && AppendsEntry(w, p, Step(w, p, m))
  {
    hide AdvanceBegin;
    hide AdvanceAbandon;
    hide AdvanceRecover;
    hide InstanceOf;
    hide Completed;
    hide Ambiguous;
    hide BeginKnows;
    hide AbandonKnows;
    hide RecordKnows;
    hide Fair;
    hide Journal.Decide;
  }

  lemma MoverRebuilds(past: Past, w: World, p: Pid, m: Move)
    requires Invariant(w) && DiskTraced(past, w.disk, w.maxAge)
    ensures RebuildsItsOwn(past, w, Step(w, p, m))
  {
    hide Step;
    hide FilesTraced;
    hide EvidenceTraced;
    hide BeginKnows;
    hide AbandonKnows;
    hide RecordKnows;
    hide OwnersDiffer;
    hide OutcomesOk;
    hide JournalOk;
    hide ClaimsAgree;
    var w' := Step(w, p, m);
    if w'.disk.snapshot != w.disk.snapshot {
      WritesOnce(w, p, m);
      StepSound(w, p, m);
      assert IncidentMutation(w.disk.evidence.incident) in Held(w.At(p));
      assert Knows(w.disk, w.used, w.At(p)) && FinishKnows(w.disk, w.At(p).f);
      OneIncident(past, w.disk, w.used, w.maxAge, w.At(p).f.sid);
    }
  }

  /** Every step keeps the traces. */
  lemma StepTraced(past: Past, w: World, past': Past, p: Pid, m: Move)
    requires Invariant(w) && Traced(past, w) && After(past, past', m, Step(w, p, m))
    ensures Traced(past', Step(w, p, m))
  {
    hide Step;
    hide ProcTraced;
    hide FilesTraced;
    hide MarkersTraced;
    hide EvidenceTraced;
    hide JournalTraced;
    hide FilesStep;
    hide Knows;
    hide ClaimsAgree;
    hide OwnersDiffer;
    hide FilesOk;
    hide OutcomesOk;
    hide JournalOk;
    hide DiskOk;
    hide Entitled;
    hide MarkersGrow;
    hide SaysTime;
    hide AddsProduced;
    hide AppendsEntry;
    hide RebuildsItsOwn;
    var w' := Step(w, p, m);
    StepSound(w, p, m);
    StepFiles(w, p, m);
    OthersStay(w, p, w');
    assert w'.maxAge == w.maxAge && past.used <= w'.used;
    hide Fair;
    assert ProcTraced(past, w.disk, w.maxAge, w.At(p)) && Knows(w.disk, w.used, w.At(p));
    MoverSaysTime(past, w, past', p, m);
    MoverAdds(w, p, m);
    MoverRebuilds(past, w, p, m);
    OnlyNewMarkers(past, w, p, w');
    FilesStayTraced(past, w, past', w', p);
    MarkersStayTraced(past, w, past', w', p);
    EvidenceStaysTraced(past, w, past', w', p);
    JournalStaysTraced(past, w, past', w', p);
    OwnTraced(past, w, past', p, m);
    forall q ensures ProcTraced(past', w'.disk, w'.maxAge, w'.At(q)) {
      if q != p {
        OthersStayTraced(past, w, past', w', p, q);
        assert w'.At(q) == w.At(q);
      }
    }
  }

  lemma {:induction false} InitialTraced(w: World, schedule: seq<Action>)
    requires Initial(w)
    ensures Traced(PastOf(w, schedule, 0), w)
  {
    assert Run(w, schedule)[0].disk.snapshot in PastOf(w, schedule, 0).snapshots;
  }

  lemma {:induction false} PastExtends(w: World, schedule: seq<Action>, k: nat)
    requires k < |schedule|
    ensures After(PastOf(w, schedule, k), PastOf(w, schedule, k + 1), schedule[k].move, Run(w, schedule)[k + 1])
  {
    var a, b := PastOf(w, schedule, k), PastOf(w, schedule, k + 1);
    hide Run;
    forall s | s in a.snapshots ensures s in b.snapshots {
      var j :| 0 <= j <= k && s == Run(w, schedule)[j].disk.snapshot;
      assert j <= k + 1;
    }
    forall s | s in b.snapshots ensures s in a.snapshots || s == Run(w, schedule)[k + 1].disk.snapshot {
      var j :| 0 <= j <= k + 1 && s == Run(w, schedule)[j].disk.snapshot;
      assert j <= k || j == k + 1;
    }
  }

  /** Everything on disk and in the journal comes from somewhere, in every world of a run. */
  lemma {:induction false} Origins(w: World, schedule: seq<Action>, k: nat)
    requires Initial(w) && k <= |schedule|
    ensures Traced(PastOf(w, schedule, k), Run(w, schedule)[k])
    decreases k
  {
    hide Traced;
    if k == 0 {
      InitialTraced(w, schedule);
    } else {
      Origins(w, schedule, k - 1);
      InitialInvariant(w);
      RunKeeps(w, schedule);
      RunSplits(w, schedule, k - 1);
      PastExtends(w, schedule, k - 1);
      var v := Run(w, schedule)[k - 1];
      assert Invariant(v);
      hide Run;
      hide Step;
      hide Invariant;
      hide After;
      hide PastOf;
      StepTraced(PastOf(w, schedule, k - 1), v, PastOf(w, schedule, k), schedule[k - 1].pid, schedule[k - 1].move);
    }
  }
}
