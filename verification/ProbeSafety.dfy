/** The protocol's invariant holds in every world any schedule reaches. */
module ProbeSafety {
  import opened Prelude
  import Journal
  import opened ProbeProtocol
  import opened ProbeInvariant
  import opened ProbeSteps

  lemma StepSound(w: World, p: Pid, m: Move)
    requires Invariant(w)
    ensures Sound(w, p, Step(w, p, m))
  {
    hide AdvanceBegin;
    hide AdvanceFinish;
    hide AdvanceAbandon;
    hide AdvanceRecover;
    hide AdvanceRecord;
    hide Sound;
    hide BeginKnows;
    hide FinishKnows;
    hide AbandonKnows;
    hide RecordKnows;
    hide ClaimsAgree;
    hide OwnersDiffer;
    hide FilesOk;
    hide OutcomesOk;
    hide JournalOk;
    assert DiskOk(w) && Knows(w.disk, w.used, w.At(p));
    match m
    case Start(call) => StartSound(w, p, call);
    case Crash => CrashSound(w, p);
    case Continue(o) =>
      match w.At(p) {
        case Idle => StutterSound(w, p);
        case InBegin(b) => BeginSound(w, p, b, o);
        case InFinish(f) => FinishSound(w, p, f, o);
        case InAbandon(a) => AbandonSound(w, p, a, o);
        case InRecover(r) => RecoverSound(w, p, r, o);
        case InRecord(j) => RecordSound(w, p, j, o);
      }
  }

  lemma StutterSound(w: World, p: Pid)
    requires DiskOk(w) && Knows(w.disk, w.used, w.At(p))
    ensures Sound(w, p, w)
  {
    hide Knows;
    ReadOnlySound(w, p, w);
  }

  lemma StartSound(w: World, p: Pid, call: Call)
    requires DiskOk(w) && Knows(w.disk, w.used, w.At(p))
    ensures Sound(w, p, Step(w, p, Start(call)))
  {
    if w.At(p).Idle? {
      ReadOnlySound(w, p, Goto(w, p, First(call)));
    } else {
      StutterSound(w, p);
    }
  }

  lemma CrashSound(w: World, p: Pid)
    requires DiskOk(w)
    ensures Sound(w, p, Fail(w, p))
  {
    ReadOnlySound(w, p, Fail(w, p));
  }

  // ----- the other processes' knowledge survives

  lemma CompletedKept(w: World, p: Pid, w': World, sid: string)
    requires Grows(w.disk, w.used, w'.disk, w'.used) && Completed(w.disk.evidence, sid)
    ensures Completed(w'.disk.evidence, sid)
  {
    var i :| i in w.disk.evidence.instances && w.disk.evidence.instances[i].session == Some(sid);
    assert i in w'.disk.evidence.instances && w'.disk.evidence.instances[i].session == Some(sid);
  }

  lemma BackedKept(w: World, p: Pid, w': World, kind: Journal.EventType, sid: string)
    requires Grows(w.disk, w.used, w'.disk, w'.used) && Backed(w.disk, kind, sid)
    ensures Backed(w'.disk, kind, sid)
  {
    if kind.Finish? { CompletedKept(w, p, w', sid); }
  }

  /** A claim q holds is not p's, so nothing it protects changes under p's step. */
  lemma Excluded(w: World, p: Pid, q: Pid, c: Claim)
    requires ClaimsAgree(w) && p != q && c in Held(w.At(q))
    ensures c !in Held(w.At(p))
  {
    hide Held;
    assert c in w.claims && w.claims[c] == q;
  }

  ghost predicate Interferes(w: World, p: Pid, w': World, q: Pid)
  {
    && p != q && ClaimsAgree(w) && OwnersDiffer(w) && DiskOk(w)
    && Grows(w.disk, w.used, w'.disk, w'.used) && Entitled(w.disk, w.used, w'.disk, w'.used, w.At(p))
  }

  lemma FinishStable(w: World, p: Pid, w': World, q: Pid, f: FinishPoint)
    requires Interferes(w, p, w', q) && w.At(q) == InFinish(f) && FinishKnows(w.disk, f)
    ensures FinishKnows(w'.disk, f)
  {
    hide OwnersDiffer;
    hide DiskOk;
    if !f.FindsIncident? && !f.TakesIncident? && !f.TakesSession? {
      Excluded(w, p, q, IncidentMutation(f.incident));
      Excluded(w, p, q, SessionClaim(f.incident, f.sid));
    }
  }

  lemma AbandonStable(w: World, p: Pid, w': World, q: Pid, a: AbandonPoint)
    requires Interferes(w, p, w', q) && w.At(q) == InAbandon(a) && AbandonKnows(w.disk, a)
    ensures AbandonKnows(w'.disk, a)
  {
    hide OwnersDiffer;
    hide DiskOk;
    if !a.FindsClaim? && !a.TakesAbandonClaim? {
      Excluded(w, p, q, SessionClaim(a.incident, a.sid));
    }
  }

  lemma RecordStable(w: World, p: Pid, w': World, q: Pid, j: RecordPoint)
    requires Interferes(w, p, w', q) && w.At(q) == InRecord(j) && RecordKnows(w.disk, j)
    ensures RecordKnows(w'.disk, j)
  {
    hide OwnersDiffer;
    hide DiskOk;
    hide Backed;
    if j.RecordSnapshot? {
      BackedKept(w, p, w', j.kind, j.sid);
    } else {
      BackedKept(w, p, w', j.entry.kind, j.entry.session);
    }
    if j.AppendsEvent? { Excluded(w, p, q, WorkflowJournal); }
  }

  lemma UntouchedStable(w: World, p: Pid, w': World, q: Pid, sid: string)
    requires Interferes(w, p, w', q) && Owned(w.At(q)) == Some(sid) && Untouched(w.disk, w.used, sid)
    ensures Untouched(w'.disk, w'.used, sid)
    ensures sid in w.disk.files.sessions <==> sid in w'.disk.files.sessions
  {
    assert Owned(w.At(p)) != Some(sid);
  }

  lemma AllCompletedStable(w: World, p: Pid, w': World, completed: set<string>)
    requires Grows(w.disk, w.used, w'.disk, w'.used) && AllCompleted(w.disk, completed)
    ensures AllCompleted(w'.disk, completed)
  {
    forall x | x in completed ensures Completed(w'.disk.evidence, x) {
      CompletedKept(w, p, w', x);
    }
  }

  lemma BeginStable(w: World, p: Pid, w': World, q: Pid, b: BeginPoint)
    requires Interferes(w, p, w', q) && w.At(q) == InBegin(b) && BeginKnows(w.disk, w.used, b)
    ensures BeginKnows(w'.disk, w'.used, b)
  {
    hide OwnersDiffer;
    hide DiskOk;
    hide ClaimsAgree;
    hide Entitled;
    hide Untouched;
    hide AllCompleted;
    if b.ChecksUnused? || b.WritesSession? || b.WritesBinding? {
      UntouchedStable(w, p, w', q, b.sid);
    } else if b.ListsFiles? || b.ScansOrphans? || b.ScansMarker? || b.ListsBindings? || b.LoadsBinding? ||
              b.LoadsSession? || b.LoadsAbandonment? {
      AllCompletedStable(w, p, w', b.completed);
    }
  }

  lemma Stable(w: World, p: Pid, w': World, q: Pid)
    requires Interferes(w, p, w', q) && Knows(w.disk, w.used, w.At(q))
    ensures Knows(w'.disk, w'.used, w.At(q))
  {
    hide Interferes;
    hide BeginKnows;
    hide FinishKnows;
    hide AbandonKnows;
    hide RecordKnows;
    match w.At(q) {
      case Idle =>
      case InBegin(b) => BeginStable(w, p, w', q, b);
      case InFinish(f) => FinishStable(w, p, w', q, f);
      case InAbandon(a) => AbandonStable(w, p, w', q, a);
      case InRecover(r) =>
      case InRecord(j) => RecordStable(w, p, w', q, j);
    }
  }

  lemma OwnedUsed(d: Disk, used: set<string>, proc: Proc)
    requires Knows(d, used, proc) && Owned(proc).Some?
    ensures Owned(proc).value in used
  {
  }

  /** Every step keeps the invariant. */
  lemma StepKeeps(w: World, p: Pid, m: Move)
    requires Invariant(w)
    ensures Invariant(Step(w, p, m))
  {
    hide Step;
    hide Knows;
    hide Owned;
    hide ClaimsAgree;
    hide OwnersDiffer;
    hide FilesOk;
    hide OutcomesOk;
    hide JournalOk;
    hide Grows;
    hide Entitled;
    hide OwnsLawfully;
    var w' := Step(w, p, m);
    StepSound(w, p, m);
    KeepsClaims(w, p, w');
    forall q | Owned(w.At(q)).Some? ensures Owned(w.At(q)).value in w.used {
      OwnedUsed(w.disk, w.used, w.At(q));
    }
    KeepsOwners(w, p, w');
    forall q ensures Knows(w'.disk, w'.used, w'.At(q)) {
      if q != p { Stable(w, p, w', q); }
    }
  }

  /** Safety over whole runs. */
  lemma {:induction false} RunKeeps(w: World, schedule: seq<Action>)
    requires Invariant(w)
    ensures forall i :: 0 <= i < |Run(w, schedule)| ==> Invariant(Run(w, schedule)[i])
    decreases |schedule|
  {
    hide Invariant;
    hide Step;
    if schedule != [] {
      StepKeeps(w, schedule[0].pid, schedule[0].move);
      RunKeeps(Step(w, schedule[0].pid, schedule[0].move), schedule[1..]);
    }
  }
}
