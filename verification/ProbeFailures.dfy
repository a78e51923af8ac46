/** When exactly a step of the probe tools fails, over whole runs and in terms of what is on disk. */
module ProbeFailures {
  import opened Prelude
  import opened SessionFiles
  import Reconciliation
  import Journal
  import opened ProbeProtocol
  import opened ProbeInvariant
  import opened ProbeTheorems
  import opened ProbeReaders
  import opened ProbeOrigins
  import opened ProbeOutcomes

  // ----- begin

  ghost predicate BeginStops(v: World, b: BeginPoint, o: Outside)
  {
    match b
    case LoadsEvidence(target, requested, snapshot) =>
      !(snapshot.incident == v.disk.evidence.incident && OneFits(snapshot.recommended, target, requested))
    case TakesClaim(task) => TargetScope(task.incident, task.target, task.scope) in v.claims
    case ReloadsEvidence(task, snapshot) =>
      !(snapshot.incident == v.disk.evidence.incident && OneFits(snapshot.recommended, task.target, task.scope))
    case ScansMarker(_, _, _, issue) => issue.sessionId !in v.disk.files.reconciled
    case LoadsBinding(_, _, todo, clash) => todo == {} && clash
    case CapturesBaseline(plan) => !(plan.readOnly && o.succeeds)
    case _ => false
  }

  /**
    A begin fails without a recommendation for its target, on a held claim, an unreconciled
    partial workflow, a clashing session, or a probe that is not read-only or does not succeed.
   */
  lemma {:induction false} BeginFails(w: World, schedule: seq<Action>, k: nat, p: Pid, b: BeginPoint, o: Outside)
    requires Initial(w) && k <= |schedule| && Run(w, schedule)[k].At(p) == InBegin(b)
    ensures var v := Run(w, schedule)[k];
            var v' := Step(v, p, Continue(o));
            if BeginStops(v, b, o) then Ends(v, p, v') else !v'.At(p).Idle?
  {
    var v := Run(w, schedule)[k];
    Reached(w, schedule, k);
    assert BeginKnows(v.disk, v.used, b) by { assert Knows(v.disk, v.used, v.At(p)); }
    hide *;
    if b.ScansOrphans? || b.ScansMarker? {
      ScanStops(w, schedule, k, p, b, o);
    } else if b.LoadsBinding? || b.LoadsSession? || b.LoadsAbandonment? {
      DiscoveryStops(w, schedule, k, p, b, o);
    } else if b.LoadsSnapshot? || b.LoadsEvidence? || b.TakesClaim? || b.ReloadsSnapshot? || b.ReloadsEvidence? {
      ChoiceStops(v, p, b, o);
    } else {
      CreationStops(v, p, b, o);
    }
  }

  lemma {:induction false} ScanStops(w: World, schedule: seq<Action>, k: nat, p: Pid, b: BeginPoint, o: Outside)
    requires Initial(w) && k <= |schedule| && Run(w, schedule)[k].At(p) == InBegin(b)
    requires b.ScansOrphans? || b.ScansMarker?
    ensures var v := Run(w, schedule)[k];
            var v' := Step(v, p, Continue(o));
            if BeginStops(v, b, o) then Ends(v, p, v') else !v'.At(p).Idle?
  {
    ScanOutcome(w, schedule, k, p, b, o);
    hide Step;
    hide Run;
    hide Initial;
  }

  lemma {:induction false} DiscoveryStops(w: World, schedule: seq<Action>, k: nat, p: Pid, b: BeginPoint, o: Outside)
    requires Initial(w) && k <= |schedule| && Run(w, schedule)[k].At(p) == InBegin(b)
    requires b.LoadsBinding? || b.LoadsSession? || b.LoadsAbandonment?
    ensures var v := Run(w, schedule)[k];
            var v' := Step(v, p, Continue(o));
            if BeginStops(v, b, o) then Ends(v, p, v') else !v'.At(p).Idle?
  {
    DiscoveryOutcome(w, schedule, k, p, b, o);
    hide Step;
    hide Run;
    hide Initial;
    hide Clashes;
  }

  lemma ChoiceStops(v: World, p: Pid, b: BeginPoint, o: Outside)
    requires v.At(p) == InBegin(b)
    requires b.LoadsSnapshot? || b.LoadsEvidence? || b.TakesClaim? || b.ReloadsSnapshot? || b.ReloadsEvidence?
    ensures var v' := Step(v, p, Continue(o)); if BeginStops(v, b, o) then Ends(v, p, v') else !v'.At(p).Idle?
  {
    hide FindRecommendation;
    hide OneFits;
  }

  lemma CreationStops(v: World, p: Pid, b: BeginPoint, o: Outside)
    requires v.At(p) == InBegin(b) && BeginKnows(v.disk, v.used, b)
    requires b.LoadsCompleted? || b.ListsFiles? || b.ListsBindings? || b.CapturesBaseline? || b.ChecksUnused?
             || b.WritesSession? || b.WritesBinding? || b.BeginReturns?
    ensures var v' := Step(v, p, Continue(o)); if BeginStops(v, b, o) then Ends(v, p, v') else !v'.At(p).Idle?
  {
    hide AllCompleted;
    hide Completed;
  }

  // ----- finish

  ghost predicate FinishStops(v: World, f: FinishPoint, o: Outside)
  {
    match f
    case FindsIncident(sid) => sid !in v.disk.files.bindings
    case TakesIncident(_, incident) => IncidentMutation(incident) in v.claims
    case TakesSession(sid, incident) => SessionClaim(incident, sid) in v.claims
    case FinishAbandonment(sid, _, _, _, _, _) => sid in v.disk.files.abandoned
    case Evaluates(sid, _, _, _, _, _) =>
      sid in v.disk.files.sessions && v.disk.files.sessions[sid].Good? ==>
        var s := v.disk.files.sessions[sid].doc;
        !(o.succeeds && s.startedAt <= o.now < s.startedAt + v.maxAge && o.instance.id !in v.disk.evidence.instances)
    case _ => false
  }

  /**
    A finish fails for a session that is not bound, on a held claim, for an abandoned session,
    or when it evaluates out of time, without success or with a used id.
   */
  lemma {:induction false} FinishFails(w: World, schedule: seq<Action>, k: nat, p: Pid, f: FinishPoint, o: Outside)
    requires Initial(w) && k <= |schedule| && Run(w, schedule)[k].At(p) == InFinish(f)
    ensures var v := Run(w, schedule)[k];
            var v' := Step(v, p, Continue(o));
            if FinishStops(v, f, o) then Ends(v, p, v') else !v'.At(p).Idle?
  {
    var v := Run(w, schedule)[k];
    var past := PastOf(w, schedule, k);
    Reached(w, schedule, k);
    ReadersReach(w, schedule, k);
    assert FinishKnows(v.disk, f) && FinishTraced(past, v.disk, v.maxAge, f) by {
      assert Knows(v.disk, v.used, v.At(p)) && ProcTraced(past, v.disk, v.maxAge, v.At(p));
    }
    assert FilesOk(v.disk, v.used) && OutcomesOk(v.disk, v.used);
    assert FilesTraced(past, v.disk) && EvidenceTraced(past, v.disk, v.maxAge) && v.maxAge == w.maxAge;
    assert f.FinishSnapshot? || f.FinishSession? ==> !FinishStops(v, f, o);
    hide *;
    if f.Evaluates? {
      EvaluationStops(w, schedule, k, p, f, o);
    } else if f.FinishSnapshot? {
      IncidentsAgree(past, v, p, f, o);
    } else if f.FinishSession? {
      PairLoads(past, v, p, f, o);
    } else if f.FinishAbandonment? {
      SettledStops(v, p, f, o);
    } else {
      OtherStops(v, p, f, o);
    }
  }

  lemma {:induction false} EvaluationStops(w: World, schedule: seq<Action>, k: nat, p: Pid, f: FinishPoint, o: Outside)
    requires Initial(w) && k <= |schedule| && Run(w, schedule)[k].At(p) == InFinish(f) && f.Evaluates?
    requires Run(w, schedule)[k].maxAge == w.maxAge
    ensures var v := Run(w, schedule)[k];
            var v' := Step(v, p, Continue(o));
            if FinishStops(v, f, o) then Ends(v, p, v') else !v'.At(p).Idle?
  {
    EvaluationOutcome(w, schedule, k, p, f, o, o);
    hide Step;
    hide Run;
    hide Initial;
  }

  lemma IncidentsAgree(past: Past, v: World, p: Pid, f: FinishPoint, o: Outside)
    requires v.At(p) == InFinish(f) && f.FinishSnapshot?
    requires FinishKnows(v.disk, f) && FinishTraced(past, v.disk, v.maxAge, f)
    requires FilesOk(v.disk, v.used) && FilesTraced(past, v.disk) && EvidenceTraced(past, v.disk, v.maxAge)
    ensures !Step(v, p, Continue(o)).At(p).Idle?
  {
    OneIncident(past, v.disk, v.used, v.maxAge, f.sid);
    assert SessionOk(v.disk, f.sid);
    hide FilesTraced;
    hide EvidenceTraced;
    hide FilesOk;
  }

  lemma PairLoads(past: Past, v: World, p: Pid, f: FinishPoint, o: Outside)
    requires v.At(p) == InFinish(f) && f.FinishSession?
    requires FinishKnows(v.disk, f) && FinishTraced(past, v.disk, v.maxAge, f) && Readable(v.disk)
    ensures !Step(v, p, Continue(o)).At(p).Idle?
  {
    assert PairOk(v.disk.files, f.sid);
    hide Readable;
  }

  lemma SettledStops(v: World, p: Pid, f: FinishPoint, o: Outside)
    requires v.At(p) == InFinish(f) && f.FinishAbandonment?
    requires FinishKnows(v.disk, f) && OutcomesOk(v.disk, v.used)
    ensures var v' := Step(v, p, Continue(o)); if FinishStops(v, f, o) then Ends(v, p, v') else !v'.At(p).Idle?
  {
    assert Ambiguous(v.disk.evidence, f.sid) ==> Completed(v.disk.evidence, f.sid);
    hide Completed;
    hide Ambiguous;
    hide InstanceOf;
  }

  lemma OtherStops(v: World, p: Pid, f: FinishPoint, o: Outside)
    requires v.At(p) == InFinish(f)
    requires !f.Evaluates? && !f.FinishSnapshot? && !f.FinishSession? && !f.FinishAbandonment?
    requires FinishKnows(v.disk, f) && FilesOk(v.disk, v.used)
    ensures var v' := Step(v, p, Continue(o)); if FinishStops(v, f, o) then Ends(v, p, v') else !v'.At(p).Idle?
  {
    assert f.sid in v.disk.files.bindings ==> BindingOk(v.disk, f.sid);
    hide FilesOk;
    hide Completed;
    hide Ambiguous;
    hide InstanceOf;
  }

  // ----- abandon

  ghost predicate AbandonStops(v: World, a: AbandonPoint)
  {
    match a
    case FindsClaim(sid) => sid !in v.disk.files.bindings
    case TakesAbandonClaim(sid, incident) => SessionClaim(incident, sid) in v.claims
    case AbandonSnapshot(sid, _, _, _) => Completed(v.disk.evidence, sid)
    case _ => false
  }

  /** An abandon fails for a session that is not bound, on a held claim, or for a completed session. */
  lemma {:induction false} AbandonFails(w: World, schedule: seq<Action>, k: nat, p: Pid, a: AbandonPoint, o: Outside)
    requires Initial(w) && k <= |schedule| && Run(w, schedule)[k].At(p) == InAbandon(a)
    ensures var v := Run(w, schedule)[k];
            var v' := Step(v, p, Continue(o));
            if AbandonStops(v, a) then Ends(v, p, v') else !v'.At(p).Idle?
  {
    var v := Run(w, schedule)[k];
    var past := PastOf(w, schedule, k);
    Reached(w, schedule, k);
    assert AbandonKnows(v.disk, a) && AbandonTraced(past, v.disk, a) by {
      assert Knows(v.disk, v.used, v.At(p)) && ProcTraced(past, v.disk, v.maxAge, v.At(p));
    }
    assert FilesOk(v.disk, v.used) && FilesTraced(past, v.disk) && MarkersTraced(past, v.disk);
    assert EvidenceTraced(past, v.disk, v.maxAge);
    hide *;
    AbandonStep(past, v, p, a, o);
  }

  lemma AbandonStep(past: Past, v: World, p: Pid, a: AbandonPoint, o: Outside)
    requires v.At(p) == InAbandon(a) && AbandonKnows(v.disk, a) && AbandonTraced(past, v.disk, a)
    requires FilesOk(v.disk, v.used) && FilesTraced(past, v.disk) && MarkersTraced(past, v.disk)
    requires EvidenceTraced(past, v.disk, v.maxAge)
    ensures var v' := Step(v, p, Continue(o)); if AbandonStops(v, a) then Ends(v, p, v') else !v'.At(p).Idle?
  {
    assert !a.FindsClaim? ==> a.sid in v.disk.files.bindings;
    assert a.AbandonSession? || a.AbandonMarker? || a.AbandonSnapshot? ==>
             a.binding == v.disk.files.bindings[a.sid].doc;
    assert a.AbandonSnapshot? ==>
             && (Completed(a.evidence, a.sid) <==> Completed(v.disk.evidence, a.sid))
             && a.evidence.incident == v.disk.evidence.incident;
    hide *;
    if a.sid in v.disk.files.bindings { BoundLoads(past, v, a.sid); }
    ValidMarker(past, v, a.sid);
    if a.AbandonSnapshot? { AbandonDecides(v, p, a, o); } else { AbandonElsewhere(v, p, a, o); }
  }

  /** A bound session has both files, of the incident that the evidence and the snapshot are of. */
  lemma BoundLoads(past: Past, v: World, x: string)
    requires FilesOk(v.disk, v.used) && FilesTraced(past, v.disk) && EvidenceTraced(past, v.disk, v.maxAge)
    requires x in v.disk.files.bindings
    ensures LoadsBindingOf(v.disk.files, x) && LoadsSessionOf(v.disk.files, x)
    ensures v.disk.files.bindings[x].doc.incident == v.disk.files.sessions[x].doc.incident == v.disk.evidence.incident
    ensures v.disk.snapshot.incident == v.disk.evidence.incident
  {
    assert BindingOk(v.disk, x) && SessionOk(v.disk, x);
    OneIncident(past, v.disk, v.used, v.maxAge, x);
    hide FilesOk;
    hide FilesTraced;
    hide EvidenceTraced;
  }

  lemma ValidMarker(past: Past, v: World, x: string)
    requires MarkersTraced(past, v.disk)
    ensures x in v.disk.files.abandoned ==>
              ValidAbandonment(v.disk.files.abandoned[x], x, v.disk.evidence.incident)
  {
    hide MarkerTraced;
    hide Clocked;
  }

  lemma AbandonDecides(v: World, p: Pid, a: AbandonPoint, o: Outside)
    requires v.At(p) == InAbandon(a) && a.AbandonSnapshot?
    requires Completed(a.evidence, a.sid) <==> Completed(v.disk.evidence, a.sid)
    requires v.disk.snapshot.incident == a.evidence.incident == a.binding.incident
    ensures var v' := Step(v, p, Continue(o)); if AbandonStops(v, a) then Ends(v, p, v') else !v'.At(p).Idle?
  {
    hide Completed;
    hide AdvanceBegin;
    hide AdvanceFinish;
    hide AdvanceRecover;
    hide AdvanceRecord;
  }

  lemma AbandonElsewhere(v: World, p: Pid, a: AbandonPoint, o: Outside)
    requires v.At(p) == InAbandon(a) && !a.AbandonSnapshot?
    requires a.sid in v.disk.files.bindings ==>
               LoadsBindingOf(v.disk.files, a.sid) && LoadsSessionOf(v.disk.files, a.sid)
    requires !a.FindsClaim? ==> a.sid in v.disk.files.bindings
    requires a.AbandonSession? || a.AbandonMarker? ==> a.binding.incident == v.disk.evidence.incident
    requires a.AbandonSession? ==> v.disk.files.sessions[a.sid].doc.incident == v.disk.evidence.incident
    requires a.AbandonMarker? && a.sid in v.disk.files.abandoned ==>
               ValidAbandonment(v.disk.files.abandoned[a.sid], a.sid, v.disk.evidence.incident)
    ensures var v' := Step(v, p, Continue(o)); if AbandonStops(v, a) then Ends(v, p, v') else !v'.At(p).Idle?
  {
    hide Completed;
    hide AdvanceBegin;
    hide AdvanceFinish;
    hide AdvanceRecover;
    hide AdvanceRecord;
  }

  // ----- reconcile

  /** The session has only its session file, and nothing discards it. */
  ghost predicate Partial(d: Disk, x: string)
  {
    x in d.files.sessions && x !in d.files.bindings && x !in d.files.reconciled
  }

  ghost predicate ReconcileStops(v: World, r: RecoverPoint)
  {
    match r
    case TakesRecovery(sid, _) => WorkflowRecovery(sid) in v.claims
    case ScansCurrent(sid, fp, _) =>
      Partial(v.disk, sid) && fp != Fingerprint(sid, LoneSession(v.disk.files.sessions[sid]))
    case ScansAll(sid, _, _) => Partial(v.disk, sid)
    case Reconciles(sid, _, _) => !Partial(v.disk, sid) && sid !in v.disk.files.reconciled
    case RecoverReturns(sid, fp, _, _) =>
      sid in v.disk.files.sessions ==> fp != Fingerprint(sid, LoneSession(v.disk.files.sessions[sid]))
    case _ => false
  }

  /**
    A reconciliation fails on a held claim, for a session with nothing partial and no marker,
    and unless the caller's fingerprint is that of the session's file.
   */
  lemma {:induction false} ReconcileFails(w: World, schedule: seq<Action>, k: nat, p: Pid, r: RecoverPoint, o: Outside)
    requires Initial(w) && k <= |schedule| && Run(w, schedule)[k].At(p) == InRecover(r)
    ensures var v := Run(w, schedule)[k];
            var v' := Step(v, p, Continue(o));
            if ReconcileStops(v, r) then Ends(v, p, v') else !v'.At(p).Idle?
  {
    var v := Run(w, schedule)[k];
    var past := PastOf(w, schedule, k);
    Reached(w, schedule, k);
    assert RecoverTraced(past, v.disk, r) by { assert ProcTraced(past, v.disk, v.maxAge, v.At(p)); }
    assert FilesOk(v.disk, v.used) && FilesTraced(past, v.disk) && MarkersTraced(past, v.disk);
    assert EvidenceTraced(past, v.disk, v.maxAge);
    hide *;
    if r.ScansCurrent? || r.ScansAll? || r.Reconciles? {
      PartialMeans(past, v, r.sid, None);
      if r.ScansCurrent? { CurrentIncident(past, v, r); PartialMeans(past, v, r.sid, Some(r.incident)); }
      ReconcileScans(v, p, r, o);
    } else {
      ReconcileEnds(past, v, p, r, o);
    }
  }

  /** What a reconciliation has read as the current incident is that of the evidence, once there is a session. */
  lemma CurrentIncident(past: Past, v: World, r: RecoverPoint)
    requires RecoverTraced(past, v.disk, r) && !r.TakesRecovery? && !r.RecoverSnapshot?
    requires FilesOk(v.disk, v.used) && FilesTraced(past, v.disk) && EvidenceTraced(past, v.disk, v.maxAge)
    ensures r.sid in v.disk.files.sessions ==> r.incident == v.disk.evidence.incident
  {
    if r.sid in v.disk.files.sessions { OneIncident(past, v.disk, v.used, v.maxAge, r.sid); }
    hide FilesOk;
    hide FilesTraced;
    hide EvidenceTraced;
  }

  lemma PartialMeans(past: Past, v: World, x: string, incident: Option<string>)
    requires FilesOk(v.disk, v.used) && MarkersTraced(past, v.disk)
    requires incident.None? || (x in v.disk.files.sessions ==> incident == Some(v.disk.evidence.incident))
    ensures var found := Reconciliation.Unresolved(v.disk.files, incident, x);
            && (found.Some? <==> Partial(v.disk, x))
            && (found.Some? ==> found.value.fingerprint == Fingerprint(x, LoneSession(v.disk.files.sessions[x])))
    ensures x in v.disk.files.reconciled ==> v.disk.files.reconciled[x].Good?
  {
    if x in v.disk.files.sessions { assert SessionOk(v.disk, x); }
    if x in v.disk.files.reconciled { assert MarkerTraced(past, v.disk, x, v.disk.files.reconciled[x].doc); }
    hide MarkersTraced;
    hide Clocked;
  }

  lemma ReconcileScans(v: World, p: Pid, r: RecoverPoint, o: Outside)
    requires v.At(p) == InRecover(r) && (r.ScansCurrent? || r.ScansAll? || r.Reconciles?)
    requires Reconciliation.Unresolved(v.disk.files, None, r.sid).Some? <==> Partial(v.disk, r.sid)
    requires r.sid in v.disk.files.reconciled ==> v.disk.files.reconciled[r.sid].Good?
    requires r.ScansCurrent? ==>
               var found := Reconciliation.Unresolved(v.disk.files, Some(r.incident), r.sid);
               && (found.Some? <==> Partial(v.disk, r.sid))
               && (found.Some? ==>
                     found.value.fingerprint == Fingerprint(r.sid, LoneSession(v.disk.files.sessions[r.sid])))
    ensures var v' := Step(v, p, Continue(o)); if ReconcileStops(v, r) then Ends(v, p, v') else !v'.At(p).Idle?
  {
    hide Reconciliation.Unresolved;
  }

  lemma ReconcileEnds(past: Past, v: World, p: Pid, r: RecoverPoint, o: Outside)
    requires v.At(p) == InRecover(r) && !(r.ScansCurrent? || r.ScansAll? || r.Reconciles?)
    requires RecoverTraced(past, v.disk, r) && FilesOk(v.disk, v.used) && MarkersTraced(past, v.disk)
    requires FilesTraced(past, v.disk) && EvidenceTraced(past, v.disk, v.maxAge)
    ensures var v' := Step(v, p, Continue(o)); if ReconcileStops(v, r) then Ends(v, p, v') else !v'.At(p).Idle?
  {
    if r.RecoverReturns? {
      CurrentIncident(past, v, r);
      assert MarkerTraced(past, v.disk, r.sid, r.marker);
    }
    hide FilesOk;
    hide FilesTraced;
    hide EvidenceTraced;
    hide MarkersTraced;
    hide Clocked;
  }

  // ----- the audit report

  ghost predicate RecordStops(v: World, j: RecordPoint)
  {
    match j
    case TakesJournal(_) => WorkflowJournal in v.claims
    case ReadsJournal(_) => v.disk.evidence.incident == ""
    case RecordReturns(_) => true
    case _ => false
  }

  /** Two truthful reports of one transition are the same. */
  lemma TellsOnce(d: Disk, kind: Journal.EventType, sid: string, a: Report, b: Report)
    requires Tells(d, kind, sid, a) && Tells(d, kind, sid, b) && !Ambiguous(d.evidence, sid)
    ensures a == b
  {
  }

  /**
    A report ends at its return, on the held journal claim, or where the evidence names no
    incident; in particular it is never rejected as conflicting with an earlier one.
   */
  lemma {:induction false} RecordFails(w: World, schedule: seq<Action>, k: nat, p: Pid, j: RecordPoint, o: Outside)
    requires Initial(w) && k <= |schedule| && Run(w, schedule)[k].At(p) == InRecord(j)
    ensures var v := Run(w, schedule)[k];
            var v' := Step(v, p, Continue(o));
            && (if RecordStops(v, j) then Ends(v, p, v') else !v'.At(p).Idle?)
            && (j.ReadsJournal? ==> !Journal.Decide(v.disk.journal, j.entry).Conflict?)
  {
    var v := Run(w, schedule)[k];
    var past := PastOf(w, schedule, k);
    Reached(w, schedule, k);
    assert RecordTraced(past, v.disk, j) by { assert ProcTraced(past, v.disk, v.maxAge, v.At(p)); }
    assert JournalTraced(past, v.disk) && JournalOk(v.disk) && OutcomesOk(v.disk, v.used);
    assert j.ReadsJournal? ==> EntryTells(v.disk, j.entry);
    hide *;
    if j.ReadsJournal? {
      NoConflict(past, v, j.entry);
      ReadsStep(v, p, j, o);
    } else {
      RecordStep(past, v, p, j, o);
    }
  }

  lemma NoConflict(past: Past, v: World, e: Entry)
    requires EntryTells(v.disk, e) && JournalTraced(past, v.disk) && JournalOk(v.disk) && OutcomesOk(v.disk, v.used)
    ensures !Journal.Decide(v.disk.journal, e).Conflict?
    ensures e.incident == v.disk.evidence.incident && (e.incident == "" ==> Journal.Decide(v.disk.journal, e).New?)
  {
    var d := v.disk;
    assert Ambiguous(d.evidence, e.session) ==> Completed(d.evidence, e.session);
    hide Journal.Decide;
    hide Ambiguous;
    hide Completed;
    hide Tells;
    hide Backed;
    if i :| 0 <= i < |d.journal| && d.journal[i].kind == e.kind && d.journal[i].session == e.session {
      assert EntryTells(d, d.journal[i]);
      TellsOnce(d, e.kind, e.session, e.data, d.journal[i].data);
      assert d.journal[i] == e;
      assert Journal.Decide(d.journal, e) == Journal.Recorded(i);
    }
  }

  lemma ReadsStep(v: World, p: Pid, j: RecordPoint, o: Outside)
    requires v.At(p) == InRecord(j) && j.ReadsJournal? && !Journal.Decide(v.disk.journal, j.entry).Conflict?
    requires j.entry.incident == v.disk.evidence.incident
    requires j.entry.incident == "" ==> Journal.Decide(v.disk.journal, j.entry).New?
    ensures var v' := Step(v, p, Continue(o)); if RecordStops(v, j) then Ends(v, p, v') else !v'.At(p).Idle?
  {
    hide Journal.Decide;
  }

  lemma RecordStep(past: Past, v: World, p: Pid, j: RecordPoint, o: Outside)
    requires v.At(p) == InRecord(j) && !j.ReadsJournal? && RecordTraced(past, v.disk, j)
    ensures var v' := Step(v, p, Continue(o)); if RecordStops(v, j) then Ends(v, p, v') else !v'.At(p).Idle?
  {
  }
}
