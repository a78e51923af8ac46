/** Which files of the session directory one step of the protocol writes, and with what content. */
module ProbeWrites {
  import opened SessionFiles
  import Reconciliation
  import Journal
  import opened ProbeProtocol

  ghost predicate WroteSession(w: World, p: Pid, w': World)
  {
    && w.At(p).InBegin? && w.At(p).b.WritesSession?
    && var b := w.At(p).b;
       && w'.disk.files == w.disk.files.(sessions :=
                                           w.disk.files.sessions[b.sid := Good(Begun(b.plan, b.sid, b.startedAt))])
       && w'.At(p) == InBegin(WritesBinding(b.plan, b.sid, b.startedAt))
  }

  ghost predicate WroteBinding(w: World, p: Pid, w': World)
  {
    && w.At(p).InBegin? && w.At(p).b.WritesBinding?
    && var b := w.At(p).b;
       && w'.disk.files == w.disk.files.(bindings := w.disk.files.bindings[b.sid := Good(Bound(b.plan, b.sid))])
       && w'.At(p) == InBegin(BeginReturns(b.plan, b.sid, b.startedAt))
  }

  ghost predicate WroteAbandonment(w: World, p: Pid, w': World)
  {
    && w.At(p).InAbandon? && w.At(p).a.WritesAbandonment?
    && w'.At(p).InAbandon? && w'.At(p).a.AbandonReturns?
    && var (a, r) := (w.At(p).a, w'.At(p).a);
       && r.binding == a.binding
       && w'.disk.files == w.disk.files.(abandoned := w.disk.files.abandoned[a.sid :=
            Good(AbandonmentDoc(a.sid, a.binding.incident, r.abandonedAt))])
  }

  ghost predicate WroteMarker(w: World, p: Pid, w': World)
  {
    && w.At(p).InRecover? && w.At(p).r.WritesMarker?
    && w'.At(p).InRecover? && w'.At(p).r.RecoverReturns?
    && w'.disk.files == w.disk.files.(reconciled := w.disk.files.reconciled[w.At(p).r.sid := Good(w'.At(p).r.marker)])
    && w'.At(p).r.marker.sessionId == w.At(p).r.issue.sessionId
  }

  ghost predicate FilesStep(w: World, p: Pid, w': World)
  {
    || w'.disk.files == w.disk.files
    || WroteSession(w, p, w') || WroteBinding(w, p, w') || WroteAbandonment(w, p, w') || WroteMarker(w, p, w')
  }

  lemma BeginFiles(w: World, p: Pid, b: BeginPoint, o: Outside)
    requires w.At(p) == InBegin(b)
    ensures FilesStep(w, p, AdvanceBegin(w, p, b, o))
  {
    hide FindRecommendation;
    hide Reconciliation.Relevant;
    hide Reconciliation.Resolved;
  }

  lemma FinishFiles(w: World, p: Pid, f: FinishPoint, o: Outside)
    requires w.At(p) == InFinish(f)
    ensures FilesStep(w, p, AdvanceFinish(w, p, f, o))
  {
  }

  lemma AbandonFiles(w: World, p: Pid, a: AbandonPoint, o: Outside)
    requires w.At(p) == InAbandon(a)
    ensures FilesStep(w, p, AdvanceAbandon(w, p, a, o))
  {
  }

  lemma RecoverFiles(w: World, p: Pid, r: RecoverPoint, o: Outside)
    requires w.At(p) == InRecover(r)
    ensures FilesStep(w, p, AdvanceRecover(w, p, r, o))
  {
    hide Reconciliation.Unresolved;
  }

  lemma RecordFiles(w: World, p: Pid, j: RecordPoint, o: Outside)
    requires w.At(p) == InRecord(j)
    ensures FilesStep(w, p, AdvanceRecord(w, p, j, o))
  {
    hide Journal.Decide;
  }

  lemma StepFiles(w: World, p: Pid, m: Move)
    ensures FilesStep(w, p, Step(w, p, m))
    ensures Step(w, p, m).disk.files != w.disk.files ==> m.Continue?
  {
    hide AdvanceBegin;
    hide AdvanceFinish;
    hide AdvanceAbandon;
    hide AdvanceRecover;
    hide AdvanceRecord;
    if m.Continue? {
      match w.At(p) {
        case Idle =>
        case InBegin(b) => BeginFiles(w, p, b, m.outside);
        case InFinish(f) => FinishFiles(w, p, f, m.outside);
        case InAbandon(a) => AbandonFiles(w, p, a, m.outside);
        case InRecover(r) => RecoverFiles(w, p, r, m.outside);
        case InRecord(j) => RecordFiles(w, p, j, m.outside);
      }
    }
  }
}
