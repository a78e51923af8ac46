/** What the two readers of the session directory find in any world the protocol reaches. */
module ProbeReaders {
  import opened Prelude
  import opened SessionFiles
  import Reconciliation
  import Journal
  import SessionReaders
  import opened ProbeProtocol
  import opened ProbeWrites
  import opened ProbeInvariant
  import opened ProbeSteps
  import opened ProbeSafety
  import opened ProbeTheorems
  import opened ProbeSlots
  import opened ProbeRecovery

  // ----- what the files say of each other

  /** Pairs agree, abandoned sessions have both files, and every marker names its session. */
  ghost predicate Readable(d: Disk)
  {
    && (forall x :: x in d.files.bindings ==> PairOk(d.files, x))
    && (forall x :: x in d.files.abandoned ==>
          x in d.files.bindings && ValidAbandonment(d.files.abandoned[x], x, d.evidence.incident))
    && (forall x :: x in d.files.reconciled ==> d.files.reconciled[x].Good? && d.files.reconciled[x].doc.sessionId == x)
  }

  ghost predicate PairOk(files: Files, x: string)
    requires x in files.bindings
  {
    && x in files.sessions && files.sessions[x].Good? && files.bindings[x].Good?
    && Paired(x, files.sessions[x].doc, files.bindings[x].doc)
  }

  /** What a process knows of the documents it is about to complete. */
  ghost predicate ReaderKnows(d: Disk, proc: Proc)
  {
    match proc
    case InBegin(WritesBinding(plan, sid, startedAt)) =>
      sid in d.files.sessions && d.files.sessions[sid] == Good(Begun(plan, sid, startedAt))
    case InAbandon(a) =>
      a.FindsClaim? || a.TakesAbandonClaim? || a.AbandonBinding? || a.binding.incident == d.evidence.incident
    case InRecover(WritesMarker(sid, _, _, issue)) => issue.sessionId == sid
    case _ => true
  }

  ghost predicate ReaderInvariant(w: World)
  {
    Readable(w.disk) && forall p :: ReaderKnows(w.disk, w.At(p))
  }

  lemma OwnBegin(w: World, p: Pid, b: BeginPoint, o: Outside)
    requires w.At(p) == InBegin(b)
    ensures var w' := AdvanceBegin(w, p, b, o); ReaderKnows(w.disk, w.At(p)) ==> ReaderKnows(w'.disk, w'.At(p))
  {
    hide FindRecommendation;
    hide Reconciliation.Relevant;
    hide Reconciliation.Resolved;
  }

  lemma OwnAbandon(w: World, p: Pid, a: AbandonPoint, o: Outside)
    requires w.At(p) == InAbandon(a) && FilesOk(w.disk, w.used) && ReaderKnows(w.disk, w.At(p))
    ensures var w' := AdvanceAbandon(w, p, a, o); ReaderKnows(w'.disk, w'.At(p))
  {
  }

  lemma OwnRecover(w: World, p: Pid, r: RecoverPoint, o: Outside)
    requires w.At(p) == InRecover(r)
    ensures var w' := AdvanceRecover(w, p, r, o); ReaderKnows(w'.disk, w'.At(p))
  {
    hide Reconciliation.Resolved;
    hide Reconciliation.Relevant;
  }

  lemma OwnFinish(w: World, p: Pid, f: FinishPoint, o: Outside)
    requires w.At(p) == InFinish(f)
    ensures var w' := AdvanceFinish(w, p, f, o); ReaderKnows(w'.disk, w'.At(p))
  {
  }

  lemma OwnRecord(w: World, p: Pid, j: RecordPoint, o: Outside)
    requires w.At(p) == InRecord(j)
    ensures var w' := AdvanceRecord(w, p, j, o); ReaderKnows(w'.disk, w'.At(p))
  {
    hide Journal.Decide;
  }

  lemma OwnStart(w: World, p: Pid, m: Move)
    requires !m.Continue? || w.At(p).Idle?
    ensures var w' := Step(w, p, m); (w'.At(p) == w.At(p) && w'.disk == w.disk) || ReaderKnows(w'.disk, w'.At(p))
  {
    hide AdvanceBegin;
    hide AdvanceFinish;
    hide AdvanceAbandon;
    hide AdvanceRecover;
    hide AdvanceRecord;
  }

  lemma OwnKnows(w: World, p: Pid, m: Move)
    requires FilesOk(w.disk, w.used) && ReaderKnows(w.disk, w.At(p))
    ensures ReaderKnows(Step(w, p, m).disk, Step(w, p, m).At(p))
  {
    hide AdvanceBegin;
    hide AdvanceFinish;
    hide AdvanceAbandon;
    hide AdvanceRecover;
    hide AdvanceRecord;
    hide ReaderKnows;
    hide FilesOk;
    if !m.Continue? {
      OwnStart(w, p, m);
    } else {
      match w.At(p) {
        case Idle => OwnStart(w, p, m);
        case InBegin(b) => OwnBegin(w, p, b, m.outside);
        case InFinish(f) => OwnFinish(w, p, f, m.outside);
        case InAbandon(a) => OwnAbandon(w, p, a, m.outside);
        case InRecover(r) => OwnRecover(w, p, r, m.outside);
        case InRecord(j) => OwnRecord(w, p, j, m.outside);
      }
    }
  }

  lemma OthersKnow(w: World, p: Pid, w': World, proc: Proc)
    requires Grows(w.disk, w.used, w'.disk, w'.used) && ReaderKnows(w.disk, proc)
    ensures ReaderKnows(w'.disk, proc)
  {
  }

  /** Each kind of write leaves the files readable. */
  lemma FilesKept(w: World, p: Pid, w': World)
    requires Readable(w.disk) && FilesStep(w, p, w') && Grows(w.disk, w.used, w'.disk, w'.used)
    requires ReaderKnows(w.disk, w.At(p)) && Knows(w.disk, w.used, w.At(p))
    ensures Readable(w'.disk)
  {
    hide Grows;
    hide Readable;
    hide WroteSession;
    hide WroteBinding;
    hide WroteAbandonment;
    hide WroteMarker;
    hide Knows;
    hide ReaderKnows;
    SameIncident(w, w');
    if w'.disk.files == w.disk.files {
      SameFiles(w.disk, w'.disk);
    } else if WroteSession(w, p, w') {
      SessionKept(w, p, w');
    } else if WroteBinding(w, p, w') {
      BindingKept(w, p, w');
    } else if WroteAbandonment(w, p, w') {
      AbandonmentKept(w, p, w');
    } else {
      MarkerKept(w, p, w');
    }
  }

  lemma SameFiles(d: Disk, d': Disk)
    requires Readable(d) && d'.files == d.files && d'.evidence.incident == d.evidence.incident
    ensures Readable(d')
  {
  }

  lemma SessionKept(w: World, p: Pid, w': World)
    requires Readable(w.disk) && WroteSession(w, p, w') && w'.disk.evidence.incident == w.disk.evidence.incident
    requires Knows(w.disk, w.used, w.At(p))
    ensures Readable(w'.disk)
  {
    hide Paired;
    assert w.At(p).b.sid !in w.disk.files.bindings;
    hide Knows;
  }

  lemma BindingKept(w: World, p: Pid, w': World)
    requires Readable(w.disk) && WroteBinding(w, p, w') && w'.disk.evidence.incident == w.disk.evidence.incident
    requires ReaderKnows(w.disk, w.At(p))
    ensures Readable(w'.disk)
  {
    assert PairOk(w'.disk.files, w.At(p).b.sid);
    hide ReaderKnows;
    hide Paired;
  }

  lemma AbandonmentKept(w: World, p: Pid, w': World)
    requires Readable(w.disk) && WroteAbandonment(w, p, w') && w'.disk.evidence.incident == w.disk.evidence.incident
    requires ReaderKnows(w.disk, w.At(p)) && Knows(w.disk, w.used, w.At(p))
    ensures Readable(w'.disk)
  {
    hide Paired;
    assert w.At(p).a.sid in w.disk.files.bindings;
    assert w.At(p).a.binding.incident == w.disk.evidence.incident;
    hide Knows;
    hide ReaderKnows;
  }

  lemma MarkerKept(w: World, p: Pid, w': World)
    requires Readable(w.disk) && WroteMarker(w, p, w') && w'.disk.evidence.incident == w.disk.evidence.incident
    requires ReaderKnows(w.disk, w.At(p))
    ensures Readable(w'.disk)
  {
    hide Paired;
    hide ValidAbandonment;
  }

  lemma SameIncident(w: World, w': World)
    requires Grows(w.disk, w.used, w'.disk, w'.used)
    ensures w'.disk.evidence.incident == w.disk.evidence.incident
  {
  }

  lemma ReaderStep(w: World, p: Pid, m: Move)
    requires Invariant(w) && ReaderInvariant(w)
    ensures ReaderInvariant(Step(w, p, m))
  {
    hide FilesStep;
    hide Readable;
    hide ReaderKnows;
    hide Step;
    hide Grows;
    hide Entitled;
    hide DiskOk;
    hide Knows;
    hide ClaimsAgree;
    hide OwnersDiffer;
    hide FilesOk;
    hide OutcomesOk;
    hide JournalOk;
    var w' := Step(w, p, m);
    StepSound(w, p, m);
    StepFiles(w, p, m);
    FilesKept(w, p, w');
    OwnKnows(w, p, m);
    OthersStay(w, p, w');
    forall q ensures ReaderKnows(w'.disk, w'.At(q)) {
      if q != p { OthersKnow(w, p, w', w.At(q)); }
    }
  }

  lemma {:induction false} ReaderRun(w: World, schedule: seq<Action>)
    requires Invariant(w) && ReaderInvariant(w)
    ensures forall i :: 0 <= i <= |schedule| ==> Invariant(Run(w, schedule)[i]) && ReaderInvariant(Run(w, schedule)[i])
    decreases |schedule|
  {
    hide Invariant;
    hide ReaderInvariant;
    hide Step;
    if schedule != [] {
      StepKeeps(w, schedule[0].pid, schedule[0].move);
      ReaderStep(w, schedule[0].pid, schedule[0].move);
      ReaderRun(Step(w, schedule[0].pid, schedule[0].move), schedule[1..]);
    }
  }

  // ----- reading such a disk

  /** The query loads this disk: its files, and one reading for each evidence instance. */
  ghost predicate Loads(q: SessionReaders.Query, d: Disk)
  {
    && q.files == d.files && q.evidence.incident == d.evidence.incident && q.maxAge > 0
    && (forall k :: 0 <= k < |q.evidence.instances| ==> Loaded(d, q.evidence.instances[k]))
    && (forall j, k :: 0 <= j < k < |q.evidence.instances| ==> q.evidence.instances[j].id != q.evidence.instances[k].id)
    && (forall i :: i in d.evidence.instances ==> exists x :: x in q.evidence.instances && x.id == i)
  }

  ghost predicate Loaded(d: Disk, x: SessionReaders.Reading)
  {
    x.id in d.evidence.instances && d.evidence.instances[x.id].session == x.session
  }

  lemma {:induction false} TwoResults(rs: seq<SessionReaders.Reading>, sid: string) returns (j: nat, k: nat)
    requires |SessionReaders.ResultsOf(rs, sid)| > 1
    ensures j < k < |rs| && rs[j].session == Some(sid) && rs[k].session == Some(sid)
  {
    if rs[0].session == Some(sid) {
      assert SessionReaders.ResultsOf(rs[1..], sid) != [];
      var x :| x in rs[1..] && x.session == Some(sid);
      var i :| 0 <= i < |rs[1..]| && rs[1..][i] == x;
      j, k := 0, i + 1;
    } else {
      j, k := TwoResults(rs[1..], sid);
      j, k := j + 1, k + 1;
    }
  }

  lemma ResultsMean(q: SessionReaders.Query, d: Disk, sid: string)
    requires Loads(q, d)
    ensures SessionReaders.Results(q, sid) != [] <==> Completed(d.evidence, sid)
    ensures |SessionReaders.Results(q, sid)| > 1 ==> Ambiguous(d.evidence, sid)
  {
    var rs := q.evidence.instances;
    if SessionReaders.Results(q, sid) != [] {
      var x :| x in rs && x.session == Some(sid);
      assert Loaded(d, x);
    }
    if Completed(d.evidence, sid) {
      var i :| i in d.evidence.instances && d.evidence.instances[i].session == Some(sid);
      var x :| x in rs && x.id == i;
      assert Loaded(d, x);
    }
    if |SessionReaders.Results(q, sid)| > 1 {
      var j, k := TwoResults(rs, sid);
      assert Loaded(d, rs[j]) && Loaded(d, rs[k]);
    }
  }

  /** In a world the protocol keeps, one session id is read without fault and as what it is. */
  lemma ReadsWell(w: World, q: SessionReaders.Query, sid: string)
    requires Invariant(w) && ReaderInvariant(w) && Loads(q, w.disk)
    ensures !SessionReaders.HistoryFault(q, sid) && !SessionReaders.PendingFault(q, sid)
    ensures SessionReaders.IsPending(q, sid) <==> Open(w.disk, sid)
  {
    hide ClaimsAgree;
    hide OwnersDiffer;
    hide JournalOk;
    hide Knows;
    hide ReaderKnows;
    hide SessionReaders.Results;
    hide Reconciliation.Unresolved;
    ResultsMean(q, w.disk, sid);
    hide Loaded;
    UniqueOutcome(w, sid);
    hide Completed;
    hide Ambiguous;
    hide Reported;
    assert sid in w.disk.files.bindings ==> BindingOk(w.disk, sid) && PairOk(w.disk.files, sid);
  }

  /**
    In every world the protocol reaches, the history is readable; pending discovery raises
    exactly while some partial workflow is unreconciled, and otherwise lists exactly the open sessions.
   */
  lemma {:induction false} ReachableReads(w: World, schedule: seq<Action>, k: nat, q: SessionReaders.Query)
    requires Initial(w) && k <= |schedule| && Loads(q, Run(w, schedule)[k].disk)
    ensures forall sid :: !SessionReaders.HistoryFault(q, sid)
    ensures SessionReaders.PendingRaises(q) <==> exists x :: Stuck(Run(w, schedule)[k].disk, x)
    ensures forall sid :: SessionReaders.IsPending(q, sid) <==> Open(Run(w, schedule)[k].disk, sid)
  {
    InitialInvariant(w);
    assert ReaderInvariant(w);
    ReaderRun(w, schedule);
    var v := Run(w, schedule)[k];
    assert Invariant(v) && ReaderInvariant(v);
    hide Invariant;
    hide ReaderInvariant;
    hide SessionReaders.HistoryFault;
    hide SessionReaders.PendingFault;
    hide SessionReaders.IsPending;
    hide Open;
    hide Initial;
    hide Reconciliation.Unresolved;
    forall sid
      ensures !SessionReaders.HistoryFault(q, sid) && !SessionReaders.PendingFault(q, sid)
      ensures SessionReaders.IsPending(q, sid) <==> Open(v.disk, sid)
    {
      ReadsWell(v, q, sid);
    }
    forall x ensures Stuck(v.disk, x) <==>
                     Reconciliation.Unresolved(q.files, Some(q.evidence.incident), x).Some? {
    }
  }

  function PendingSlot(p: SessionReaders.Pending): Slot { Slot(p.incident, p.target, p.scope) }

  /** Discovery never lists two sessions for one slot whose two scopes were never claimed at once. */
  lemma {:induction false} PendingSlotsDiffer(w: World, schedule: seq<Action>, k: nat, q: SessionReaders.Query,
                                              ps: seq<SessionReaders.Pending>)
    requires Initial(w) && k <= |schedule| && Loads(q, Run(w, schedule)[k].disk)
    requires SessionReaders.PendingList(q, ps)
    ensures forall i, j :: 0 <= i < j < |ps| && NeverMixed(w, schedule, PendingSlot(ps[i])) ==>
              PendingSlot(ps[i]) != PendingSlot(ps[j])
  {
    ReachableReads(w, schedule, k, q);
    var d := Run(w, schedule)[k].disk;
    forall i, j | 0 <= i < j < |ps| && NeverMixed(w, schedule, PendingSlot(ps[i]))
      ensures PendingSlot(ps[i]) != PendingSlot(ps[j]) {
      SlotSingle(w, schedule, k, PendingSlot(ps[i]));
      SlotsApart(q, d, ps, i, j);
    }
  }

  lemma SlotsApart(q: SessionReaders.Query, d: Disk, ps: seq<SessionReaders.Pending>, i: nat, j: nat)
    requires SessionReaders.PendingList(q, ps) && i < j < |ps| && q.files == d.files && Single(d, PendingSlot(ps[i]))
    requires forall sid :: SessionReaders.IsPending(q, sid) <==> Open(d, sid)
    ensures PendingSlot(ps[i]) != PendingSlot(ps[j])
  {
    assert SessionReaders.DescribesPending(q, ps[i]) && SessionReaders.DescribesPending(q, ps[j]);
    SessionReaders.PendingApart(ps[i], ps[j]);
    assert OpenIn(d, ps[i].sessionId, PendingSlot(ps[i])) && OpenIn(d, ps[j].sessionId, PendingSlot(ps[j]));
  }
}
