/** What a run leaves behind, read off the disk alone: results in time, advised sessions, a truthful journal. */
module ProbeOutcomes {
  import opened Prelude
  import opened SessionFiles
  import Journal
  import Reconciliation
  import opened ProbeProtocol
  import opened ProbeInvariant
  import opened ProbeSafety
  import opened ProbeTheorems
  import opened ProbeReaders
  import opened ProbeOrigins

  lemma {:induction false} Reached(w: World, schedule: seq<Action>, k: nat)
    requires Initial(w) && k <= |schedule|
    ensures Traced(PastOf(w, schedule, k), Run(w, schedule)[k]) && Invariant(Run(w, schedule)[k])
  {
    InitialInvariant(w);
    RunKeeps(w, schedule);
    Origins(w, schedule, k);
  }

  /**
    Evidence that a run adds is about a session of that run, observed while the session was
    not expired; the evidence it started with stays, and is about none of its sessions.
   */
  lemma {:induction false} ResultsInTime(w: World, schedule: seq<Action>, k: nat, i: string)
    requires Initial(w) && k <= |schedule| && i in Run(w, schedule)[k].disk.evidence.instances
    ensures var d := Run(w, schedule)[k].disk;
            var x := d.evidence.instances[i];
            if i in w.disk.evidence.instances then
              x == w.disk.evidence.instances[i] && (x.session.Some? ==> x.session.value !in d.files.sessions)
            else
              && x.id == i && x.session.Some? && x.session.value !in w.used
              && x.session.value in d.files.sessions && d.files.sessions[x.session.value].Good?
              && var s := d.files.sessions[x.session.value].doc;
                 s.startedAt <= x.observedAt < s.startedAt + w.maxAge && x.scope == s.scope
  {
    Reached(w, schedule, k);
    var d := Run(w, schedule)[k].disk;
    assert EvidenceTraced(PastOf(w, schedule, k), d, w.maxAge) && OutcomesOk(d, Run(w, schedule)[k].used);
    if i in w.disk.evidence.instances && w.disk.evidence.instances[i].session.Some? {
      assert Completed(w.disk.evidence, w.disk.evidence.instances[i].session.value);
    }
  }

  /** The process is done: nothing written, its claims given back, everyone else's kept. */
  ghost predicate Ends(v: World, p: Pid, v': World)
  {
    v'.disk == v.disk && v'.At(p).Idle? && forall c :: c in v'.claims <==> c in v.claims && v.claims[c] != p
  }

  /** Nothing written, and the process keeps working under its claims. */
  ghost predicate GoesOn(v: World, p: Pid, v': World)
  {
    v'.disk == v.disk && !v'.At(p).Idle? && v'.claims == v.claims
  }

  /**
    A finish that evaluates goes on to write exactly when the executor succeeds, between the
    start on disk and the maximal age after it, with an id that no evidence has; it then adds
    that one instance.  Otherwise it ends with its claims released and nothing written.
   */
  lemma {:induction false} EvaluationOutcome(w: World, schedule: seq<Action>, k: nat, p: Pid, f: FinishPoint,
                                             o: Outside, later: Outside)
    requires Initial(w) && k <= |schedule| && Run(w, schedule)[k].At(p) == InFinish(f) && f.Evaluates?
    ensures var v := Run(w, schedule)[k];
            var v' := Step(v, p, Continue(o));
            && f.sid in v.disk.files.sessions && v.disk.files.sessions[f.sid].Good?
            && var s := v.disk.files.sessions[f.sid].doc;
               if o.succeeds && s.startedAt <= o.now < s.startedAt + w.maxAge &&
                  o.instance.id !in v.disk.evidence.instances
               then
                 && GoesOn(v, p, v')
                 && var x := o.instance.(session := Some(f.sid), scope := s.scope, observedAt := o.now);
                    Step(v', p, Continue(later)).disk ==
                      v.disk.(evidence := v.disk.evidence.(instances := v.disk.evidence.instances[x.id := x]))
               else Ends(v, p, v')
  {
    Reached(w, schedule, k);
    var v := Run(w, schedule)[k];
    assert ProcTraced(PastOf(w, schedule, k), v.disk, v.maxAge, v.At(p)) && Knows(v.disk, v.used, v.At(p));
    assert v.maxAge == w.maxAge && f.sid in v.disk.files.sessions && v.disk.files.sessions[f.sid] == Good(f.session);
    assert FinishKnows(v.disk, f);
    hide *;
    EvaluationStep(v, p, f, o);
    ResultStep(Step(v, p, Continue(o)), p, later);
  }

  lemma EvaluationStep(v: World, p: Pid, f: FinishPoint, o: Outside)
    requires v.At(p) == InFinish(f) && f.Evaluates? && FinishKnows(v.disk, f)
    ensures var v' := Step(v, p, Continue(o));
            var s := f.session;
            if o.succeeds && s.startedAt <= o.now < s.startedAt + v.maxAge &&
               o.instance.id !in v.disk.evidence.instances
            then
              && GoesOn(v, p, v') && v'.disk == v.disk && v'.At(p).InFinish? && v'.At(p).f.WritesEvidence?
              && v'.At(p).f.evidence == v.disk.evidence
              && v'.At(p).f.produced == o.instance.(session := Some(f.sid), scope := s.scope, observedAt := o.now)
            else Ends(v, p, v')
  {
    assert o.instance.id in v.disk.evidence.instances && v.disk.evidence.instances[o.instance.id].session == Some(f.sid)
      ==> Completed(v.disk.evidence, f.sid);
    hide Completed;
    hide Ambiguous;
    hide InstanceOf;
    hide AdvanceBegin;
    hide AdvanceAbandon;
    hide AdvanceRecover;
    hide AdvanceRecord;
  }

  lemma ResultStep(v: World, p: Pid, o: Outside)
    ensures v.At(p).InFinish? && v.At(p).f.WritesEvidence? ==>
              var f := v.At(p).f;
              Step(v, p, Continue(o)).disk ==
                v.disk.(evidence := f.evidence.(instances := f.evidence.instances[f.produced.id := f.produced]))
  {
  }

  /**
    A begin that scans stops exactly when it has come upon a partial workflow of which no
    marker is on disk; otherwise it goes on to the partial workflows left.
   */
  lemma {:induction false} ScanOutcome(w: World, schedule: seq<Action>, k: nat, p: Pid, b: BeginPoint, o: Outside)
    requires Initial(w) && k <= |schedule| && Run(w, schedule)[k].At(p) == InBegin(b)
    requires b.ScansOrphans? || b.ScansMarker?
    ensures var v := Run(w, schedule)[k];
            var v' := Step(v, p, Continue(o));
            if b.ScansOrphans? then GoesOn(v, p, v')
            else
              && b.issue.sessionId in v.disk.files.sessions
              && if b.issue.sessionId in v.disk.files.reconciled
                 then GoesOn(v, p, v') &&
                      v'.At(p) == InBegin(ScansOrphans(b.plan, b.completed, b.orphans - {b.issue.sessionId}))
                 else Ends(v, p, v')
  {
    Reached(w, schedule, k);
    var v := Run(w, schedule)[k];
    var past := PastOf(w, schedule, k);
    assert ProcTraced(past, v.disk, v.maxAge, v.At(p)) && Knows(v.disk, v.used, v.At(p));
    assert BeginTraced(past, v.disk, b);
    if b.ScansMarker? {
      var x := b.issue.sessionId;
      assert SessionOk(v.disk, x) && b.plan.incident == v.disk.evidence.incident;
      if x in v.disk.files.reconciled {
        assert MarkerTraced(past, v.disk, x, v.disk.files.reconciled[x].doc);
      }
      assert b.issue == Reconciliation.IssueFor(x, LoneSession(v.disk.files.sessions[x]));
      assert x in v.disk.files.reconciled ==> Reconciliation.Resolved(v.disk.files, b.issue);
      assert Reconciliation.Relevant(b.issue, Some(b.plan.incident));
      hide *;
      ScanStep(v, p, b, o);
    } else {
      hide *;
      OrphanStep(past, v, p, b, o);
    }
  }

  lemma OrphanStep(past: Past, v: World, p: Pid, b: BeginPoint, o: Outside)
    requires v.At(p) == InBegin(b) && b.ScansOrphans? && BeginTraced(past, v.disk, b)
    ensures GoesOn(v, p, Step(v, p, Continue(o)))
  {
    hide Advised;
    hide Captured;
    hide Clashes;
    hide AdvanceBegin';
    hide Reconciliation.IssueFor;
  }

  lemma ScanStep(v: World, p: Pid, b: BeginPoint, o: Outside)
    requires v.At(p) == InBegin(b) && b.ScansMarker? && Reconciliation.Relevant(b.issue, Some(b.plan.incident))
    requires b.issue.sessionId in v.disk.files.reconciled ==> Reconciliation.Resolved(v.disk.files, b.issue)
    ensures var v' := Step(v, p, Continue(o));
            if b.issue.sessionId in v.disk.files.reconciled
            then GoesOn(v, p, v') &&
                 v'.At(p) == InBegin(ScansOrphans(b.plan, b.completed, b.orphans - {b.issue.sessionId}))
            else Ends(v, p, v')
  {
    hide Reconciliation.Relevant;
    hide Reconciliation.Matches;
    hide AdvanceBegin';
    hide AdvanceFinish;
    hide AdvanceAbandon;
    hide AdvanceRecover;
    hide AdvanceRecord;
  }

  /**
    While a begin examines the bindings, nothing that is on disk stops it but a clash, and
    then a session is bound to its target and scope that it did not find completed.
   */
  lemma {:induction false} DiscoveryOutcome(w: World, schedule: seq<Action>, k: nat, p: Pid, b: BeginPoint, o: Outside)
    requires Initial(w) && k <= |schedule| && Run(w, schedule)[k].At(p) == InBegin(b) && Examines(b)
    ensures var v := Run(w, schedule)[k];
            var v' := Step(v, p, Continue(o));
            && (if b.LoadsBinding? && b.todo == {} && b.clash
                then Ends(v, p, v') && exists x :: Clashes(v.disk, b.plan, b.completed, x)
                else GoesOn(v, p, v'))
            && (b.LoadsBinding? && b.todo == {} && !b.clash ==> v'.At(p) == InBegin(CapturesBaseline(b.plan)))
  {
    Reached(w, schedule, k);
    ReadersReach(w, schedule, k);
    var v := Run(w, schedule)[k];
    var past := PastOf(w, schedule, k);
    assert BeginTraced(past, v.disk, b) && BeginKnows(v.disk, v.used, b) by {
      assert ProcTraced(past, v.disk, v.maxAge, v.At(p)) && Knows(v.disk, v.used, v.At(p));
    }
    assert DiskTraced(past, v.disk, v.maxAge) && FilesOk(v.disk, v.used) && Readable(v.disk);
    hide *;
    ExaminationStep(past, v, p, b, o);
  }

  lemma {:induction false} ReadersReach(w: World, schedule: seq<Action>, k: nat)
    requires Initial(w) && k <= |schedule|
    ensures Readable(Run(w, schedule)[k].disk)
  {
    InitialInvariant(w);
    assert ReaderInvariant(w);
    ReaderRun(w, schedule);
  }

  lemma ExaminationStep(past: Past, v: World, p: Pid, b: BeginPoint, o: Outside)
    requires v.At(p) == InBegin(b) && Examines(b) && BeginTraced(past, v.disk, b) && BeginKnows(v.disk, v.used, b)
    requires FilesOk(v.disk, v.used) && Readable(v.disk)
    ensures var v' := Step(v, p, Continue(o));
            && (if b.LoadsBinding? && b.todo == {} && b.clash
                then Ends(v, p, v') && exists x :: Clashes(v.disk, b.plan, b.completed, x)
                else GoesOn(v, p, v'))
            && (b.LoadsBinding? && b.todo == {} && !b.clash ==> v'.At(p) == InBegin(CapturesBaseline(b.plan)))
  {
    assert b.clash ==> exists x :: Clashes(v.disk, b.plan, b.completed, x);
    assert b.LoadsBinding? || b.LoadsSession? || b.LoadsAbandonment?;
    hide *;
    if b.LoadsBinding? {
      if b.todo == {} { LastBindingStep(v, p, b, o); } else { BindingStep(past, v, p, b, o); }
    } else if b.LoadsSession? {
      SessionStep(v, p, b, o);
    } else {
      AbandonmentStep(v, p, b, o);
    }
  }

  lemma LastBindingStep(v: World, p: Pid, b: BeginPoint, o: Outside)
    requires v.At(p) == InBegin(b) && b.LoadsBinding? && b.todo == {}
    ensures var v' := Step(v, p, Continue(o));
            if b.clash then Ends(v, p, v') else GoesOn(v, p, v') && v'.At(p) == InBegin(CapturesBaseline(b.plan))
  {
  }

  lemma BindingStep(past: Past, v: World, p: Pid, b: BeginPoint, o: Outside)
    requires v.At(p) == InBegin(b) && b.LoadsBinding? && b.todo != {} && BeginTraced(past, v.disk, b)
    requires FilesOk(v.disk, v.used)
    ensures GoesOn(v, p, Step(v, p, Continue(o)))
  {
    hide Clashes;
    hide SessionOk;
    hide Advised;
    hide Captured;
    if o.pick in b.todo { assert BindingOk(v.disk, o.pick); }
  }

  lemma SessionStep(v: World, p: Pid, b: BeginPoint, o: Outside)
    requires v.At(p) == InBegin(b) && b.LoadsSession? && BeginKnows(v.disk, v.used, b) && Readable(v.disk)
    ensures GoesOn(v, p, Step(v, p, Continue(o)))
  {
    assert PairOk(v.disk.files, b.sid);
    hide Readable;
    hide AllCompleted;
  }

  lemma AbandonmentStep(v: World, p: Pid, b: BeginPoint, o: Outside)
    requires v.At(p) == InBegin(b) && b.LoadsAbandonment? && BeginKnows(v.disk, v.used, b)
    requires Readable(v.disk) && FilesOk(v.disk, v.used)
    ensures GoesOn(v, p, Step(v, p, Continue(o)))
  {
    assert b.binding.incident == v.disk.evidence.incident by { assert BindingOk(v.disk, b.sid); }
    hide FilesOk;
    hide PairOk;
    hide AllCompleted;
  }

  /** Every session on disk was begun under a fresh id, when its probe's baseline was captured. */
  lemma {:induction false} SessionsCaptured(w: World, schedule: seq<Action>, k: nat, x: string) returns (j: nat)
    requires Initial(w) && k <= |schedule| && x in Run(w, schedule)[k].disk.files.sessions
    ensures j < k && schedule[j].move.Continue?
    ensures var s := Run(w, schedule)[k].disk.files.sessions[x];
            var o := schedule[j].move.outside;
            && s.Good? && s.doc.sessionId == x == o.newId && x !in w.used
            && o.succeeds && s.doc.startedAt == o.now && s.doc.executor == s.doc.probe
  {
    Reached(w, schedule, k);
    var past := PastOf(w, schedule, k);
    var s := Run(w, schedule)[k].disk.files.sessions[x];
    assert SessionTraced(past, x, s.doc);
    var o :| o in past.inputs && o.succeeds && o.newId == x && o.now == s.doc.startedAt;
    j :| 0 <= j < k && schedule[j].move.Continue? && schedule[j].move.outside == o;
  }

  /**
    Every binding on disk was advised: some earlier snapshot, of the binding's incident and
    revision, recommended for its target and scope this one probe, as read-only.
   */
  lemma {:induction false} BindingsAdvised(w: World, schedule: seq<Action>, k: nat, x: string) returns (j: nat, i: nat)
    requires Initial(w) && k <= |schedule| && x in Run(w, schedule)[k].disk.files.bindings
    ensures j <= k && Run(w, schedule)[k].disk.files.bindings[x].Good?
    ensures var b := Run(w, schedule)[k].disk.files.bindings[x].doc;
            var s := Run(w, schedule)[j].disk.snapshot;
            && s.incident == b.incident == w.disk.evidence.incident && s.revision == b.revision
            && OnlyFits(s.recommended, b.target, b.scope, i)
            && s.recommended[i] == Recommendation(b.scope, b.target, b.probe, true)
  {
    Reached(w, schedule, k);
    var past := PastOf(w, schedule, k);
    var v := Run(w, schedule)[k];
    var b := v.disk.files.bindings[x].doc;
    SameIncidentInRun(w, schedule, k);
    assert FilesOk(v.disk, v.used) && BindingOk(v.disk, x);
    var r := Recommendation(b.scope, b.target, b.probe, true);
    assert Advised(past, b.incident, b.revision, r);
    var s :| s in past.snapshots && s.incident == b.incident && s.revision == b.revision && Advises(s, r);
    j :| 0 <= j <= k && Run(w, schedule)[j].disk.snapshot == s;
    i :| OnlyFits(s.recommended, r.target, r.scope, i) && s.recommended[i] == r;
  }

  lemma {:induction false} SameIncidentInRun(w: World, schedule: seq<Action>, k: nat)
    requires Initial(w) && k <= |schedule|
    ensures Run(w, schedule)[k].disk.evidence.incident == w.disk.evidence.incident
  {
    InitialInvariant(w);
    NothingLost(w, schedule, 0, k);
  }

  /** Every event of the journal agrees with what is on disk, and is about the incident of the evidence. */
  lemma {:induction false} JournalTells(w: World, schedule: seq<Action>, k: nat, n: nat)
    requires Initial(w) && k <= |schedule| && n < |Run(w, schedule)[k].disk.journal|
    ensures var d := Run(w, schedule)[k].disk;
            && Tells(d, d.journal[n].kind, d.journal[n].session, d.journal[n].data)
            && d.journal[n].incident == w.disk.evidence.incident
  {
    Reached(w, schedule, k);
    SameIncidentInRun(w, schedule, k);
    var d := Run(w, schedule)[k].disk;
    assert EntryTells(d, d.journal[n]);
  }
}
