/** The effect of each step of the probe-session protocol, operation by operation. */
module ProbeSteps {
  import opened Prelude
  import opened ProbeProtocol
  import opened ProbeInvariant

  /** Only p moves, by the rules on claims and generated ids. */
  ghost predicate Fair(w: World, p: Pid, w': World)
  {
    Lawful(w, p, w') && OwnsLawfully(w, p, w') && w.used <= w'.used
  }

  /** A step that writes nothing. */
  ghost predicate ReadOnly(w: World, p: Pid, w': World)
  {
    Fair(w, p, w') && w'.disk == w.disk
  }

  lemma BeginEarly(w: World, p: Pid, b: BeginPoint, o: Outside)
    requires w.At(p) == InBegin(b) && (b.LoadsSnapshot? || b.LoadsEvidence? || b.TakesClaim?)
    ensures ReadOnly(w, p, AdvanceBegin(w, p, b, o))
  {
  }

  lemma BeginEarlyKnows(w: World, p: Pid, b: BeginPoint, o: Outside)
    requires w.At(p) == InBegin(b) && (b.LoadsSnapshot? || b.LoadsEvidence? || b.TakesClaim?)
    requires BeginKnows(w.disk, w.used, b) && FilesOk(w.disk, w.used) && OutcomesOk(w.disk, w.used)
    ensures var w' := AdvanceBegin(w, p, b, o); Knows(w'.disk, w'.used, w'.At(p))
  {
  }

  lemma BeginReloads(w: World, p: Pid, b: BeginPoint, o: Outside)
    requires w.At(p) == InBegin(b) && (b.ReloadsSnapshot? || b.ReloadsEvidence? || b.LoadsCompleted?)
    ensures ReadOnly(w, p, AdvanceBegin(w, p, b, o))
  {
  }

  lemma BeginReloadsKnows(w: World, p: Pid, b: BeginPoint, o: Outside)
    requires w.At(p) == InBegin(b) && (b.ReloadsSnapshot? || b.ReloadsEvidence? || b.LoadsCompleted?)
    requires BeginKnows(w.disk, w.used, b) && FilesOk(w.disk, w.used) && OutcomesOk(w.disk, w.used)
    ensures var w' := AdvanceBegin(w, p, b, o); Knows(w'.disk, w'.used, w'.At(p))
  {
  }

  lemma BeginScans(w: World, p: Pid, b: BeginPoint, o: Outside)
    requires w.At(p) == InBegin(b) && (b.ListsFiles? || b.ScansOrphans? || b.ScansMarker?)
    ensures ReadOnly(w, p, AdvanceBegin(w, p, b, o))
  {
    hide AdvanceBegin;
    hide ReadOnly;
    if b.ListsFiles? || b.ScansOrphans? { ScansFiles(w, p, b, o); } else { ScansOneMarker(w, p, b, o); }
  }

  lemma ScansFiles(w: World, p: Pid, b: BeginPoint, o: Outside)
    requires w.At(p) == InBegin(b) && (b.ListsFiles? || b.ScansOrphans?)
    ensures ReadOnly(w, p, AdvanceBegin(w, p, b, o))
  {
  }

  lemma ScansOneMarker(w: World, p: Pid, b: BeginPoint, o: Outside)
    requires w.At(p) == InBegin(b) && b.ScansMarker?
    ensures ReadOnly(w, p, AdvanceBegin(w, p, b, o))
  {
  }

  lemma BeginScansKnows(w: World, p: Pid, b: BeginPoint, o: Outside)
    requires w.At(p) == InBegin(b) && (b.ListsFiles? || b.ScansOrphans? || b.ScansMarker?)
    requires BeginKnows(w.disk, w.used, b) && FilesOk(w.disk, w.used) && OutcomesOk(w.disk, w.used)
    ensures var w' := AdvanceBegin(w, p, b, o); Knows(w'.disk, w'.used, w'.At(p))
  {
  }

  lemma BeginDiscovers(w: World, p: Pid, b: BeginPoint, o: Outside)
    requires w.At(p) == InBegin(b) && (b.ListsBindings? || b.LoadsBinding?)
    ensures ReadOnly(w, p, AdvanceBegin(w, p, b, o))
  {
  }

  lemma BeginDiscoversKnows(w: World, p: Pid, b: BeginPoint, o: Outside)
    requires w.At(p) == InBegin(b) && (b.ListsBindings? || b.LoadsBinding?)
    requires BeginKnows(w.disk, w.used, b) && FilesOk(w.disk, w.used) && OutcomesOk(w.disk, w.used)
    ensures var w' := AdvanceBegin(w, p, b, o); Knows(w'.disk, w'.used, w'.At(p))
  {
    hide AdvanceBegin;
    hide Knows;
    hide BeginKnows;
    hide FilesOk;
    hide OutcomesOk;
    if b.ListsBindings? { ListsBindingsKnows(w, p, b, o); } else { LoadsBindingKnows(w, p, b, o); }
  }

  lemma ListsBindingsKnows(w: World, p: Pid, b: BeginPoint, o: Outside)
    requires w.At(p) == InBegin(b) && b.ListsBindings?
    requires BeginKnows(w.disk, w.used, b)
    ensures var w' := AdvanceBegin(w, p, b, o); Knows(w'.disk, w'.used, w'.At(p))
  {
  }

  lemma LoadsBindingKnows(w: World, p: Pid, b: BeginPoint, o: Outside)
    requires w.At(p) == InBegin(b) && b.LoadsBinding?
    requires BeginKnows(w.disk, w.used, b)
    ensures var w' := AdvanceBegin(w, p, b, o); Knows(w'.disk, w'.used, w'.At(p))
  {
  }

  lemma BeginExamines(w: World, p: Pid, b: BeginPoint, o: Outside)
    requires w.At(p) == InBegin(b) && (b.LoadsSession? || b.LoadsAbandonment?)
    ensures ReadOnly(w, p, AdvanceBegin(w, p, b, o))
  {
    hide AdvanceBegin;
    hide ReadOnly;
    if b.LoadsSession? { ExaminesSession(w, p, b, o); } else { ExaminesAbandonment(w, p, b, o); }
  }

  lemma ExaminesSession(w: World, p: Pid, b: BeginPoint, o: Outside)
    requires w.At(p) == InBegin(b) && b.LoadsSession?
    ensures ReadOnly(w, p, AdvanceBegin(w, p, b, o))
  {
  }

  lemma ExaminesAbandonment(w: World, p: Pid, b: BeginPoint, o: Outside)
    requires w.At(p) == InBegin(b) && b.LoadsAbandonment?
    ensures ReadOnly(w, p, AdvanceBegin(w, p, b, o))
  {
  }

  lemma BeginExaminesKnows(w: World, p: Pid, b: BeginPoint, o: Outside)
    requires w.At(p) == InBegin(b) && (b.LoadsSession? || b.LoadsAbandonment?)
    requires BeginKnows(w.disk, w.used, b) && FilesOk(w.disk, w.used) && OutcomesOk(w.disk, w.used)
    ensures var w' := AdvanceBegin(w, p, b, o); Knows(w'.disk, w'.used, w'.At(p))
  {
    hide AdvanceBegin;
    hide Knows;
    hide BeginKnows;
    hide FilesOk;
    hide OutcomesOk;
    if b.LoadsSession? { ExaminesSessionKnows(w, p, b, o); } else { ExaminesAbandonmentKnows(w, p, b, o); }
  }

  lemma ExaminesSessionKnows(w: World, p: Pid, b: BeginPoint, o: Outside)
    requires w.At(p) == InBegin(b) && b.LoadsSession?
    requires BeginKnows(w.disk, w.used, b)
    ensures var w' := AdvanceBegin(w, p, b, o); Knows(w'.disk, w'.used, w'.At(p))
  {
  }

  lemma ExaminesAbandonmentKnows(w: World, p: Pid, b: BeginPoint, o: Outside)
    requires w.At(p) == InBegin(b) && b.LoadsAbandonment?
    requires BeginKnows(w.disk, w.used, b)
    ensures var w' := AdvanceBegin(w, p, b, o); Knows(w'.disk, w'.used, w'.At(p))
  {
  }

  lemma BeginCreates(w: World, p: Pid, b: BeginPoint, o: Outside)
    requires w.At(p) == InBegin(b) && (b.CapturesBaseline? || b.ChecksUnused? || b.BeginReturns?)
    ensures ReadOnly(w, p, AdvanceBegin(w, p, b, o))
  {
  }

  lemma BeginCreatesKnows(w: World, p: Pid, b: BeginPoint, o: Outside)
    requires w.At(p) == InBegin(b) && (b.CapturesBaseline? || b.ChecksUnused? || b.BeginReturns?)
    requires BeginKnows(w.disk, w.used, b) && FilesOk(w.disk, w.used) && OutcomesOk(w.disk, w.used)
    ensures var w' := AdvanceBegin(w, p, b, o); Knows(w'.disk, w'.used, w'.At(p))
  {
  }

  lemma FinishTakes(w: World, p: Pid, f: FinishPoint, o: Outside)
    requires w.At(p) == InFinish(f) && (f.FindsIncident? || f.TakesIncident? || f.TakesSession?)
    ensures ReadOnly(w, p, AdvanceFinish(w, p, f, o))
  {
  }

  lemma FinishTakesKnows(w: World, p: Pid, f: FinishPoint, o: Outside)
    requires w.At(p) == InFinish(f) && (f.FindsIncident? || f.TakesIncident? || f.TakesSession?)
    requires FinishKnows(w.disk, f) && FilesOk(w.disk, w.used) && OutcomesOk(w.disk, w.used)
    ensures var w' := AdvanceFinish(w, p, f, o); Knows(w'.disk, w'.used, w'.At(p))
  {
  }

  lemma FinishReads(w: World, p: Pid, f: FinishPoint, o: Outside)
    requires w.At(p) == InFinish(f) && (f.FinishBinding? || f.FinishSession? || f.FinishEvidence? || f.FinishSnapshot?)
    ensures ReadOnly(w, p, AdvanceFinish(w, p, f, o))
  {
  }

  lemma FinishReadsKnows(w: World, p: Pid, f: FinishPoint, o: Outside)
    requires w.At(p) == InFinish(f) && (f.FinishBinding? || f.FinishSession? || f.FinishEvidence? || f.FinishSnapshot?)
    requires FinishKnows(w.disk, f) && FilesOk(w.disk, w.used) && OutcomesOk(w.disk, w.used)
    ensures var w' := AdvanceFinish(w, p, f, o); Knows(w'.disk, w'.used, w'.At(p))
  {
  }

  lemma FinishDecides(w: World, p: Pid, f: FinishPoint, o: Outside)
    requires w.At(p) == InFinish(f) && (f.FinishAbandonment? || f.Evaluates? || f.FinishReturns?)
    ensures ReadOnly(w, p, AdvanceFinish(w, p, f, o))
  {
    hide AdvanceFinish;
    hide ReadOnly;
    if f.Evaluates? { DecidesByProbe(w, p, f, o); } else { DecidesAtOnce(w, p, f, o); }
  }

  lemma DecidesByProbe(w: World, p: Pid, f: FinishPoint, o: Outside)
    requires w.At(p) == InFinish(f) && f.Evaluates?
    ensures ReadOnly(w, p, AdvanceFinish(w, p, f, o))
  {
  }

  lemma DecidesAtOnce(w: World, p: Pid, f: FinishPoint, o: Outside)
    requires w.At(p) == InFinish(f) && (f.FinishAbandonment? || f.FinishReturns?)
    ensures ReadOnly(w, p, AdvanceFinish(w, p, f, o))
  {
  }

  /** A finish that finds its session completed knows the one instance of it. */
  lemma FinishResumesKnows(w: World, p: Pid, f: FinishPoint, o: Outside)
    requires w.At(p) == InFinish(f) && f.FinishAbandonment?
    requires FinishKnows(w.disk, f) && OutcomesOk(w.disk, w.used)
    ensures var w' := AdvanceFinish(w, p, f, o); Knows(w'.disk, w'.used, w'.At(p))
  {
  }

  lemma FinishDecidesKnows(w: World, p: Pid, f: FinishPoint, o: Outside)
    requires w.At(p) == InFinish(f) && (f.FinishAbandonment? || f.Evaluates? || f.FinishReturns?)
    requires FinishKnows(w.disk, f) && FilesOk(w.disk, w.used) && OutcomesOk(w.disk, w.used)
    ensures var w' := AdvanceFinish(w, p, f, o); Knows(w'.disk, w'.used, w'.At(p))
  {
    hide FilesOk;
    if f.FinishAbandonment? {
      FinishResumesKnows(w, p, f, o);
    } else {
      hide InstanceOf;
      hide Ambiguous;
      hide OutcomesOk;
    }
  }

  lemma AbandonTakes(w: World, p: Pid, a: AbandonPoint, o: Outside)
    requires w.At(p) == InAbandon(a) &&
             (a.FindsClaim? || a.TakesAbandonClaim? || a.AbandonBinding? || a.AbandonSession?)
    ensures ReadOnly(w, p, AdvanceAbandon(w, p, a, o))
  {
  }

  lemma AbandonTakesKnows(w: World, p: Pid, a: AbandonPoint, o: Outside)
    requires w.At(p) == InAbandon(a) &&
             (a.FindsClaim? || a.TakesAbandonClaim? || a.AbandonBinding? || a.AbandonSession?)
    requires AbandonKnows(w.disk, a) && FilesOk(w.disk, w.used) && OutcomesOk(w.disk, w.used)
    ensures var w' := AdvanceAbandon(w, p, a, o); Knows(w'.disk, w'.used, w'.At(p))
  {
  }

  lemma AbandonDecides(w: World, p: Pid, a: AbandonPoint, o: Outside)
    requires w.At(p) == InAbandon(a) &&
             (a.AbandonEvidence? || a.AbandonSnapshot? || a.AbandonMarker? || a.AbandonReturns?)
    ensures ReadOnly(w, p, AdvanceAbandon(w, p, a, o))
  {
  }

  lemma AbandonDecidesKnows(w: World, p: Pid, a: AbandonPoint, o: Outside)
    requires w.At(p) == InAbandon(a) &&
             (a.AbandonEvidence? || a.AbandonSnapshot? || a.AbandonMarker? || a.AbandonReturns?)
    requires AbandonKnows(w.disk, a) && FilesOk(w.disk, w.used) && OutcomesOk(w.disk, w.used)
    ensures var w' := AdvanceAbandon(w, p, a, o); Knows(w'.disk, w'.used, w'.At(p))
  {
  }

  lemma RecoverTakes(w: World, p: Pid, r: RecoverPoint, o: Outside)
    requires w.At(p) == InRecover(r) && (r.TakesRecovery? || r.RecoverSnapshot? || r.ScansCurrent?)
    ensures ReadOnly(w, p, AdvanceRecover(w, p, r, o))
  {
  }

  lemma RecoverDecides(w: World, p: Pid, r: RecoverPoint, o: Outside)
    requires w.At(p) == InRecover(r) && (r.ScansAll? || r.Reconciles? || r.RecoverReturns?)
    ensures ReadOnly(w, p, AdvanceRecover(w, p, r, o))
  {
  }

  lemma RecordReads(w: World, p: Pid, j: RecordPoint, o: Outside)
    requires w.At(p) == InRecord(j) && (j.RecordSnapshot? || j.RecordEvidence? || j.TakesJournal?)
    ensures ReadOnly(w, p, AdvanceRecord(w, p, j, o))
  {
  }

  lemma RecordReadsKnows(w: World, p: Pid, j: RecordPoint, o: Outside)
    requires w.At(p) == InRecord(j) && (j.RecordSnapshot? || j.RecordEvidence? || j.TakesJournal?)
    requires RecordKnows(w.disk, j) && FilesOk(w.disk, w.used) && OutcomesOk(w.disk, w.used)
    ensures var w' := AdvanceRecord(w, p, j, o); Knows(w'.disk, w'.used, w'.At(p))
  {
  }

  lemma RecordDecides(w: World, p: Pid, j: RecordPoint, o: Outside)
    requires w.At(p) == InRecord(j) && (j.ReadsJournal? || j.RecordReturns?)
    ensures ReadOnly(w, p, AdvanceRecord(w, p, j, o))
  {
  }

  lemma RecordDecidesKnows(w: World, p: Pid, j: RecordPoint, o: Outside)
    requires w.At(p) == InRecord(j) && (j.ReadsJournal? || j.RecordReturns?)
    requires RecordKnows(w.disk, j) && FilesOk(w.disk, w.used) && OutcomesOk(w.disk, w.used)
    ensures var w' := AdvanceRecord(w, p, j, o); Knows(w'.disk, w'.used, w'.At(p))
  {
  }

  // ----- the writing steps

  ghost predicate DiskOk(w: World)
  {
    FilesOk(w.disk, w.used) && OutcomesOk(w.disk, w.used) && JournalOk(w.disk)
  }

  /** A step that changes the disk only as far as p is entitled to, and leaves it consistent. */
  ghost predicate Sound(w: World, p: Pid, w': World)
  {
    && Fair(w, p, w')
    && Grows(w.disk, w.used, w'.disk, w'.used)
    && Entitled(w.disk, w.used, w'.disk, w'.used, w.At(p))
    && DiskOk(w')
    && Knows(w'.disk, w'.used, w'.At(p))
  }

  lemma Assemble(w: World, p: Pid, w': World)
    requires Fair(w, p, w') && Grows(w.disk, w.used, w'.disk, w'.used)
    requires Entitled(w.disk, w.used, w'.disk, w'.used, w.At(p))
    requires DiskOk(w') && Knows(w'.disk, w'.used, w'.At(p))
    ensures Sound(w, p, w')
  {
  }

  lemma BeginWritesSessionFair(w: World, p: Pid, b: BeginPoint, o: Outside)
    requires w.At(p) == InBegin(b) && b.WritesSession?
    ensures Fair(w, p, AdvanceBegin(w, p, b, o))
  {
  }

  lemma BeginWritesSessionDisk(w: World, p: Pid, b: BeginPoint, o: Outside)
    requires w.At(p) == InBegin(b) && b.WritesSession? && BeginKnows(w.disk, w.used, b) && DiskOk(w)
    ensures var w' := AdvanceBegin(w, p, b, o);
            && Grows(w.disk, w.used, w'.disk, w'.used)
            && Entitled(w.disk, w.used, w'.disk, w'.used, w.At(p))
  {
  }

  lemma BeginWritesSessionFiles(w: World, p: Pid, b: BeginPoint, o: Outside)
    requires w.At(p) == InBegin(b) && b.WritesSession? && BeginKnows(w.disk, w.used, b) && FilesOk(w.disk, w.used)
    ensures var w' := AdvanceBegin(w, p, b, o); FilesOk(w'.disk, w'.used)
  {
    hide OutcomesOk;
    hide JournalOk;
  }

  lemma BeginWritesSessionOk(w: World, p: Pid, b: BeginPoint, o: Outside)
    requires w.At(p) == InBegin(b) && b.WritesSession? && BeginKnows(w.disk, w.used, b) && DiskOk(w)
    ensures var w' := AdvanceBegin(w, p, b, o); DiskOk(w') && Knows(w'.disk, w'.used, w'.At(p))
  {
    BeginWritesSessionFiles(w, p, b, o);
    hide FilesOk;
  }

  lemma BeginWritesSession(w: World, p: Pid, b: BeginPoint, o: Outside)
    requires w.At(p) == InBegin(b) && b.WritesSession? && BeginKnows(w.disk, w.used, b) && DiskOk(w)
    ensures Sound(w, p, AdvanceBegin(w, p, b, o))
  {
    hide *;
    BeginWritesSessionFair(w, p, b, o);
    BeginWritesSessionDisk(w, p, b, o);
    BeginWritesSessionOk(w, p, b, o);
    Assemble(w, p, AdvanceBegin(w, p, b, o));
  }

  lemma BeginWritesBindingFair(w: World, p: Pid, b: BeginPoint, o: Outside)
    requires w.At(p) == InBegin(b) && b.WritesBinding?
    ensures Fair(w, p, AdvanceBegin(w, p, b, o))
  {
  }

  lemma BeginWritesBindingDisk(w: World, p: Pid, b: BeginPoint, o: Outside)
    requires w.At(p) == InBegin(b) && b.WritesBinding? && BeginKnows(w.disk, w.used, b) && DiskOk(w)
    ensures var w' := AdvanceBegin(w, p, b, o);
            && Grows(w.disk, w.used, w'.disk, w'.used)
            && Entitled(w.disk, w.used, w'.disk, w'.used, w.At(p))
  {
  }

  lemma BeginWritesBindingFiles(w: World, p: Pid, b: BeginPoint, o: Outside)
    requires w.At(p) == InBegin(b) && b.WritesBinding? && BeginKnows(w.disk, w.used, b) && FilesOk(w.disk, w.used)
    ensures var w' := AdvanceBegin(w, p, b, o); FilesOk(w'.disk, w'.used)
  {
    hide OutcomesOk;
    hide JournalOk;
  }

  lemma BeginWritesBindingKnows(w: World, p: Pid, b: BeginPoint, o: Outside)
    requires w.At(p) == InBegin(b) && b.WritesBinding? && BeginKnows(w.disk, w.used, b)
    ensures var w' := AdvanceBegin(w, p, b, o); Knows(w'.disk, w'.used, w'.At(p))
  {
    hide FilesOk;
    hide OutcomesOk;
    hide JournalOk;
  }

  lemma BeginWritesBindingOk(w: World, p: Pid, b: BeginPoint, o: Outside)
    requires w.At(p) == InBegin(b) && b.WritesBinding? && BeginKnows(w.disk, w.used, b) && DiskOk(w)
    ensures var w' := AdvanceBegin(w, p, b, o); DiskOk(w') && Knows(w'.disk, w'.used, w'.At(p))
  {
    BeginWritesBindingFiles(w, p, b, o);
    BeginWritesBindingKnows(w, p, b, o);
    hide FilesOk;
    hide Knows;
    hide BeginKnows;
  }

  lemma BeginWritesBinding(w: World, p: Pid, b: BeginPoint, o: Outside)
    requires w.At(p) == InBegin(b) && b.WritesBinding? && BeginKnows(w.disk, w.used, b) && DiskOk(w)
    ensures Sound(w, p, AdvanceBegin(w, p, b, o))
  {
    hide *;
    BeginWritesBindingFair(w, p, b, o);
    BeginWritesBindingDisk(w, p, b, o);
    BeginWritesBindingOk(w, p, b, o);
    Assemble(w, p, AdvanceBegin(w, p, b, o));
  }

  /** Adding one labelled instance under a new id completes exactly that session. */
  lemma CompletedAfter(e: Evidence, produced: Instance, sid: string)
    requires produced.id !in e.instances && produced.session == Some(sid) && !Completed(e, sid)
    ensures var e' := e.(instances := e.instances[produced.id := produced]);
            && (forall x :: Completed(e', x) <==> Completed(e, x) || x == sid)
            && (forall x :: Ambiguous(e', x) <==> Ambiguous(e, x))
  {
    var e' := e.(instances := e.instances[produced.id := produced]);
    forall x ensures Completed(e', x) <==> Completed(e, x) || x == sid {
      if Completed(e, x) {
        var i :| i in e.instances && e.instances[i].session == Some(x);
        assert i in e'.instances && e'.instances[i].session == Some(x);
      }
      assert produced.id in e'.instances && e'.instances[produced.id].session == Some(sid);
    }
    forall x ensures Ambiguous(e', x) <==> Ambiguous(e, x) {
      if Ambiguous(e, x) {
        var i, j :| i in e.instances && j in e.instances && i != j &&
                    e.instances[i].session == Some(x) && e.instances[j].session == Some(x);
        assert i in e'.instances && j in e'.instances;
        assert e'.instances[i].session == Some(x) && e'.instances[j].session == Some(x);
      }
      if Ambiguous(e', x) {
        var i, j :| i in e'.instances && j in e'.instances && i != j &&
                    e'.instances[i].session == Some(x) && e'.instances[j].session == Some(x);
      }
    }
  }

  lemma FinishWritesEvidenceFair(w: World, p: Pid, f: FinishPoint, o: Outside)
    requires w.At(p) == InFinish(f) && f.WritesEvidence?
    ensures Fair(w, p, AdvanceFinish(w, p, f, o))
  {
  }

  lemma FinishWritesEvidenceDisk(w: World, p: Pid, f: FinishPoint, o: Outside)
    requires w.At(p) == InFinish(f) && f.WritesEvidence? && FinishKnows(w.disk, f) && DiskOk(w)
    ensures var w' := AdvanceFinish(w, p, f, o);
            && Grows(w.disk, w.used, w'.disk, w'.used)
            && Entitled(w.disk, w.used, w'.disk, w'.used, w.At(p))
  {
    CompletedAfter(w.disk.evidence, f.produced, f.sid);
  }

  lemma FinishWritesEvidenceFiles(w: World, p: Pid, f: FinishPoint, o: Outside)
    requires w.At(p) == InFinish(f) && f.WritesEvidence? && FinishKnows(w.disk, f) && FilesOk(w.disk, w.used)
    ensures var w' := AdvanceFinish(w, p, f, o); FilesOk(w'.disk, w'.used)
  {
  }

  lemma FinishWritesEvidenceOk(w: World, p: Pid, f: FinishPoint, o: Outside)
    requires w.At(p) == InFinish(f) && f.WritesEvidence? && FinishKnows(w.disk, f) && DiskOk(w)
    ensures var w' := AdvanceFinish(w, p, f, o); DiskOk(w') && Knows(w'.disk, w'.used, w'.At(p))
  {
    hide FilesOk;
    FinishWritesEvidenceFiles(w, p, f, o);
    CompletedAfter(w.disk.evidence, f.produced, f.sid);
  }

  lemma FinishWritesEvidence(w: World, p: Pid, f: FinishPoint, o: Outside)
    requires w.At(p) == InFinish(f) && f.WritesEvidence? && FinishKnows(w.disk, f) && DiskOk(w)
    ensures Sound(w, p, AdvanceFinish(w, p, f, o))
  {
    hide *;
    FinishWritesEvidenceFair(w, p, f, o);
    FinishWritesEvidenceDisk(w, p, f, o);
    FinishWritesEvidenceOk(w, p, f, o);
    Assemble(w, p, AdvanceFinish(w, p, f, o));
  }

  lemma FinishWritesSnapshotFair(w: World, p: Pid, f: FinishPoint, o: Outside)
    requires w.At(p) == InFinish(f) && f.WritesSnapshot?
    ensures Fair(w, p, AdvanceFinish(w, p, f, o))
  {
  }

  lemma FinishWritesSnapshotDisk(w: World, p: Pid, f: FinishPoint, o: Outside)
    requires w.At(p) == InFinish(f) && f.WritesSnapshot? && FinishKnows(w.disk, f) && DiskOk(w)
    ensures var w' := AdvanceFinish(w, p, f, o);
            && Grows(w.disk, w.used, w'.disk, w'.used)
            && Entitled(w.disk, w.used, w'.disk, w'.used, w.At(p))
  {
  }

  lemma FinishWritesSnapshotOk(w: World, p: Pid, f: FinishPoint, o: Outside)
    requires w.At(p) == InFinish(f) && f.WritesSnapshot? && FinishKnows(w.disk, f) && DiskOk(w)
    ensures var w' := AdvanceFinish(w, p, f, o); DiskOk(w') && Knows(w'.disk, w'.used, w'.At(p))
  {
  }

  lemma FinishWritesSnapshot(w: World, p: Pid, f: FinishPoint, o: Outside)
    requires w.At(p) == InFinish(f) && f.WritesSnapshot? && FinishKnows(w.disk, f) && DiskOk(w)
    ensures Sound(w, p, AdvanceFinish(w, p, f, o))
  {
    hide *;
    FinishWritesSnapshotFair(w, p, f, o);
    FinishWritesSnapshotDisk(w, p, f, o);
    FinishWritesSnapshotOk(w, p, f, o);
    Assemble(w, p, AdvanceFinish(w, p, f, o));
  }

  lemma AbandonWritesFair(w: World, p: Pid, a: AbandonPoint, o: Outside)
    requires w.At(p) == InAbandon(a) && a.WritesAbandonment?
    ensures Fair(w, p, AdvanceAbandon(w, p, a, o))
  {
  }

  lemma AbandonWritesDisk(w: World, p: Pid, a: AbandonPoint, o: Outside)
    requires w.At(p) == InAbandon(a) && a.WritesAbandonment? && AbandonKnows(w.disk, a) && DiskOk(w)
    ensures var w' := AdvanceAbandon(w, p, a, o);
            && Grows(w.disk, w.used, w'.disk, w'.used)
            && Entitled(w.disk, w.used, w'.disk, w'.used, w.At(p))
  {
  }

  lemma AbandonWritesOk(w: World, p: Pid, a: AbandonPoint, o: Outside)
    requires w.At(p) == InAbandon(a) && a.WritesAbandonment? && AbandonKnows(w.disk, a) && DiskOk(w)
    ensures var w' := AdvanceAbandon(w, p, a, o); DiskOk(w') && Knows(w'.disk, w'.used, w'.At(p))
  {
    assert a.sid in w.disk.files.sessions;
  }

  lemma AbandonWrites(w: World, p: Pid, a: AbandonPoint, o: Outside)
    requires w.At(p) == InAbandon(a) && a.WritesAbandonment? && AbandonKnows(w.disk, a) && DiskOk(w)
    ensures Sound(w, p, AdvanceAbandon(w, p, a, o))
  {
    hide *;
    AbandonWritesFair(w, p, a, o);
    AbandonWritesDisk(w, p, a, o);
    AbandonWritesOk(w, p, a, o);
    Assemble(w, p, AdvanceAbandon(w, p, a, o));
  }

  lemma RecoverWritesFair(w: World, p: Pid, r: RecoverPoint, o: Outside)
    requires w.At(p) == InRecover(r) && r.WritesMarker?
    ensures Fair(w, p, AdvanceRecover(w, p, r, o))
  {
  }

  lemma RecoverWritesDisk(w: World, p: Pid, r: RecoverPoint, o: Outside)
    requires w.At(p) == InRecover(r) && r.WritesMarker? && DiskOk(w)
    ensures var w' := AdvanceRecover(w, p, r, o);
            && Grows(w.disk, w.used, w'.disk, w'.used)
            && Entitled(w.disk, w.used, w'.disk, w'.used, w.At(p))
  {
  }

  lemma RecoverWritesOk(w: World, p: Pid, r: RecoverPoint, o: Outside)
    requires w.At(p) == InRecover(r) && r.WritesMarker? && DiskOk(w)
    ensures var w' := AdvanceRecover(w, p, r, o); DiskOk(w') && Knows(w'.disk, w'.used, w'.At(p))
  {
  }

  lemma RecoverWrites(w: World, p: Pid, r: RecoverPoint, o: Outside)
    requires w.At(p) == InRecover(r) && r.WritesMarker? && DiskOk(w)
    ensures Sound(w, p, AdvanceRecover(w, p, r, o))
  {
    hide *;
    RecoverWritesFair(w, p, r, o);
    RecoverWritesDisk(w, p, r, o);
    RecoverWritesOk(w, p, r, o);
    Assemble(w, p, AdvanceRecover(w, p, r, o));
  }

  lemma RecordAppendsFair(w: World, p: Pid, j: RecordPoint, o: Outside)
    requires w.At(p) == InRecord(j) && j.AppendsEvent?
    ensures Fair(w, p, AdvanceRecord(w, p, j, o))
  {
  }

  lemma RecordAppendsDisk(w: World, p: Pid, j: RecordPoint, o: Outside)
    requires w.At(p) == InRecord(j) && j.AppendsEvent? && RecordKnows(w.disk, j) && DiskOk(w)
    ensures var w' := AdvanceRecord(w, p, j, o);
            && Grows(w.disk, w.used, w'.disk, w'.used)
            && Entitled(w.disk, w.used, w'.disk, w'.used, w.At(p))
  {
  }

  lemma RecordAppendsOk(w: World, p: Pid, j: RecordPoint, o: Outside)
    requires w.At(p) == InRecord(j) && j.AppendsEvent? && RecordKnows(w.disk, j) && DiskOk(w)
    ensures var w' := AdvanceRecord(w, p, j, o); DiskOk(w') && Knows(w'.disk, w'.used, w'.At(p))
  {
  }

  lemma RecordAppends(w: World, p: Pid, j: RecordPoint, o: Outside)
    requires w.At(p) == InRecord(j) && j.AppendsEvent? && RecordKnows(w.disk, j) && DiskOk(w)
    ensures Sound(w, p, AdvanceRecord(w, p, j, o))
  {
    hide *;
    RecordAppendsFair(w, p, j, o);
    RecordAppendsDisk(w, p, j, o);
    RecordAppendsOk(w, p, j, o);
    Assemble(w, p, AdvanceRecord(w, p, j, o));
  }

  // ----- any step

  lemma ReadOnlySound(w: World, p: Pid, w': World)
    requires ReadOnly(w, p, w') && DiskOk(w) && Knows(w'.disk, w'.used, w'.At(p))
    ensures Sound(w, p, w')
  {
    hide Knows;
    hide Held;
    hide Wanted;
    hide Owned;
  }

  lemma BeginSound(w: World, p: Pid, b: BeginPoint, o: Outside)
    requires w.At(p) == InBegin(b) && BeginKnows(w.disk, w.used, b) && DiskOk(w)
    ensures Sound(w, p, AdvanceBegin(w, p, b, o))
  {
    hide AdvanceBegin;
    hide BeginKnows;
    hide Knows;
    hide Fair;
    hide Grows;
    hide Entitled;
    hide FilesOk;
    hide OutcomesOk;
    hide JournalOk;
    if b.LoadsSnapshot? || b.LoadsEvidence? || b.TakesClaim? {
      BeginEarly(w, p, b, o);
      BeginEarlyKnows(w, p, b, o);
    } else if b.ReloadsSnapshot? || b.ReloadsEvidence? || b.LoadsCompleted? {
      BeginReloads(w, p, b, o);
      BeginReloadsKnows(w, p, b, o);
    } else if b.ListsFiles? || b.ScansOrphans? || b.ScansMarker? {
      BeginScans(w, p, b, o);
      BeginScansKnows(w, p, b, o);
    } else if b.ListsBindings? || b.LoadsBinding? {
      BeginDiscovers(w, p, b, o);
      BeginDiscoversKnows(w, p, b, o);
    } else if b.LoadsSession? || b.LoadsAbandonment? {
      BeginExamines(w, p, b, o);
      BeginExaminesKnows(w, p, b, o);
    } else if b.WritesSession? {
      BeginWritesSession(w, p, b, o);
      return;
    } else if b.WritesBinding? {
      BeginWritesBinding(w, p, b, o);
      return;
    } else {
      BeginCreates(w, p, b, o);
      BeginCreatesKnows(w, p, b, o);
    }
    ReadOnlySound(w, p, AdvanceBegin(w, p, b, o));
  }

  lemma FinishSound(w: World, p: Pid, f: FinishPoint, o: Outside)
    requires w.At(p) == InFinish(f) && FinishKnows(w.disk, f) && DiskOk(w)
    ensures Sound(w, p, AdvanceFinish(w, p, f, o))
  {
    hide AdvanceFinish;
    hide FinishKnows;
    hide Knows;
    hide Fair;
    hide Grows;
    hide Entitled;
    hide FilesOk;
    hide OutcomesOk;
    hide JournalOk;
    if f.FindsIncident? || f.TakesIncident? || f.TakesSession? {
      FinishTakes(w, p, f, o);
      FinishTakesKnows(w, p, f, o);
    } else if f.WritesEvidence? {
      FinishWritesEvidence(w, p, f, o);
      return;
    } else if f.WritesSnapshot? {
      FinishWritesSnapshot(w, p, f, o);
      return;
    } else if f.FinishAbandonment? || f.Evaluates? || f.FinishReturns? {
      FinishDecides(w, p, f, o);
      FinishDecidesKnows(w, p, f, o);
    } else {
      FinishReads(w, p, f, o);
      FinishReadsKnows(w, p, f, o);
    }
    ReadOnlySound(w, p, AdvanceFinish(w, p, f, o));
  }

  lemma AbandonSound(w: World, p: Pid, a: AbandonPoint, o: Outside)
    requires w.At(p) == InAbandon(a) && AbandonKnows(w.disk, a) && DiskOk(w)
    ensures Sound(w, p, AdvanceAbandon(w, p, a, o))
  {
    hide AdvanceAbandon;
    hide AbandonKnows;
    hide Knows;
    hide Fair;
    hide Grows;
    hide Entitled;
    hide FilesOk;
    hide OutcomesOk;
    hide JournalOk;
    if a.WritesAbandonment? {
      AbandonWrites(w, p, a, o);
      return;
    } else if a.FindsClaim? || a.TakesAbandonClaim? || a.AbandonBinding? || a.AbandonSession? {
      AbandonTakes(w, p, a, o);
      AbandonTakesKnows(w, p, a, o);
    } else {
      AbandonDecides(w, p, a, o);
      AbandonDecidesKnows(w, p, a, o);
    }
    ReadOnlySound(w, p, AdvanceAbandon(w, p, a, o));
  }

  lemma RecoverKnows(w: World, p: Pid, r: RecoverPoint, o: Outside)
    requires w.At(p) == InRecover(r)
    ensures var w' := AdvanceRecover(w, p, r, o); Knows(w'.disk, w'.used, w'.At(p))
  {
  }

  lemma RecoverSound(w: World, p: Pid, r: RecoverPoint, o: Outside)
    requires w.At(p) == InRecover(r) && DiskOk(w)
    ensures Sound(w, p, AdvanceRecover(w, p, r, o))
  {
    hide AdvanceRecover;
    hide Knows;
    hide Fair;
    hide Grows;
    hide Entitled;
    hide DiskOk;
    if r.WritesMarker? {
      RecoverWrites(w, p, r, o);
      return;
    } else if r.TakesRecovery? || r.RecoverSnapshot? || r.ScansCurrent? {
      RecoverTakes(w, p, r, o);
    } else {
      RecoverDecides(w, p, r, o);
    }
    RecoverKnows(w, p, r, o);
    ReadOnlySound(w, p, AdvanceRecover(w, p, r, o));
  }

  lemma RecordSound(w: World, p: Pid, j: RecordPoint, o: Outside)
    requires w.At(p) == InRecord(j) && RecordKnows(w.disk, j) && DiskOk(w)
    ensures Sound(w, p, AdvanceRecord(w, p, j, o))
  {
    hide AdvanceRecord;
    hide RecordKnows;
    hide Knows;
    hide Fair;
    hide Grows;
    hide Entitled;
    hide FilesOk;
    hide OutcomesOk;
    hide JournalOk;
    if j.AppendsEvent? {
      RecordAppends(w, p, j, o);
      return;
    } else if j.ReadsJournal? || j.RecordReturns? {
      RecordDecides(w, p, j, o);
      RecordDecidesKnows(w, p, j, o);
    } else {
      RecordReads(w, p, j, o);
      RecordReadsKnows(w, p, j, o);
    }
    ReadOnlySound(w, p, AdvanceRecord(w, p, j, o));
  }
}
