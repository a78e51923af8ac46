/** What the probe-session protocol guarantees over every schedule. */
module ProbeTheorems {
  import opened Prelude
  import Journal
  import Reconciliation
  import opened ProbeProtocol
  import opened ProbeInvariant
  import opened ProbeSteps
  import opened ProbeSafety

  // ----- outcomes exclude each other

  ghost predicate Reported(d: Disk, kind: Journal.EventType, sid: string)
  {
    exists i :: 0 <= i < |d.journal| && d.journal[i].kind == kind && d.journal[i].session == sid
  }

  /**
    In no reachable world has a session both a completion and an abandonment marker, two
    completions, a finish and an abandon event, or two events of one kind.
   */
  lemma {:induction false} OutcomesExclude(w: World, schedule: seq<Action>, k: nat, sid: string)
    requires Initial(w) && k <= |schedule|
    ensures var d := Run(w, schedule)[k].disk;
            && !(Completed(d.evidence, sid) && sid in d.files.abandoned)
            && !Ambiguous(d.evidence, sid)
            && !(Reported(d, Journal.Finish, sid) && Reported(d, Journal.Abandon, sid))
            && Journal.OncePerTransition(d.journal)
  {
    InitialInvariant(w);
    RunKeeps(w, schedule);
    var v := Run(w, schedule)[k];
    assert Invariant(v);
    UniqueOutcome(v, sid);
  }

  lemma UniqueOutcome(w: World, sid: string)
    requires Invariant(w)
    ensures !(Completed(w.disk.evidence, sid) && sid in w.disk.files.abandoned)
    ensures !Ambiguous(w.disk.evidence, sid)
    ensures !(Reported(w.disk, Journal.Finish, sid) && Reported(w.disk, Journal.Abandon, sid))
  {
    var d := w.disk;
    if Ambiguous(d.evidence, sid) {
      var i :| i in d.evidence.instances && d.evidence.instances[i].session == Some(sid);
      assert Completed(d.evidence, sid);
    }
    if Reported(d, Journal.Finish, sid) {
      var i :| 0 <= i < |d.journal| && d.journal[i].kind == Journal.Finish && d.journal[i].session == sid;
      assert Backed(d, d.journal[i].kind, d.journal[i].session);
    }
    if Reported(d, Journal.Abandon, sid) {
      var i :| 0 <= i < |d.journal| && d.journal[i].kind == Journal.Abandon && d.journal[i].session == sid;
      assert Backed(d, d.journal[i].kind, d.journal[i].session);
    }
  }

  // ----- nothing written is lost

  lemma GrowsTransitive(a: Disk, u: set<string>, b: Disk, v: set<string>, c: Disk, x: set<string>)
    requires Grows(a, u, b, v) && Grows(b, v, c, x)
    ensures Grows(a, u, c, x)
  {
  }

  /** Sessions, bindings, markers, evidence, mentions and journal only ever grow, whatever happens. */
  lemma {:induction false} NothingLost(w: World, schedule: seq<Action>, i: nat, j: nat)
    requires Invariant(w) && i <= j <= |schedule|
    ensures var a, b := Run(w, schedule)[i], Run(w, schedule)[j]; Grows(a.disk, a.used, b.disk, b.used)
    decreases |schedule|
  {
    hide Invariant;
    hide Step;
    hide Fair;
    hide Entitled;
    hide DiskOk;
    hide Knows;
    if schedule == [] || j == 0 {
      GrowsReflexive(w);
    } else {
      var w' := Step(w, schedule[0].pid, schedule[0].move);
      StepKeeps(w, schedule[0].pid, schedule[0].move);
      NothingLost(w', schedule[1..], if i == 0 then 0 else i - 1, j - 1);
      if i == 0 {
        StepSound(w, schedule[0].pid, schedule[0].move);
        var b := Run(w, schedule)[j];
        GrowsTransitive(w.disk, w.used, w'.disk, w'.used, b.disk, b.used);
      }
    }
  }

  lemma GrowsReflexive(w: World)
    ensures Grows(w.disk, w.used, w.disk, w.used)
  {
  }

  /** The session's evidence is on disk and in the snapshot. */
  ghost predicate Settled(d: Disk, sid: string)
  {
    exists i :: i in d.evidence.instances && d.evidence.instances[i].session == Some(sid) && i in d.snapshot.mentions
  }

  /** Once settled, a finish of the same session, repeated or concurrent, writes neither file. */
  lemma SettledFinishWritesNothing(w: World, p: Pid, f: FinishPoint, m: Move)
    requires Invariant(w) && w.At(p) == InFinish(f) && Settled(w.disk, f.sid)
    ensures var w' := Step(w, p, m);
            w'.disk.evidence == w.disk.evidence && w'.disk.snapshot == w.disk.snapshot
  {
    hide ClaimsAgree;
    hide OwnersDiffer;
    hide JournalOk;
    hide FilesOk;
    hide Held;
    hide AdvanceBegin;
    hide AdvanceAbandon;
    hide AdvanceRecover;
    hide AdvanceRecord;
    assert Knows(w.disk, w.used, w.At(p));
    var i :| i in w.disk.evidence.instances && w.disk.evidence.instances[i].session == Some(f.sid) &&
             i in w.disk.snapshot.mentions;
    assert Completed(w.disk.evidence, f.sid);
  }

  /** Settled is for good. */
  lemma {:induction false} SettledKept(w: World, schedule: seq<Action>, i: nat, j: nat, sid: string)
    requires Invariant(w) && i <= j <= |schedule| && Settled(Run(w, schedule)[i].disk, sid)
    ensures Settled(Run(w, schedule)[j].disk, sid)
  {
    NothingLost(w, schedule, i, j);
    var a, b := Run(w, schedule)[i].disk, Run(w, schedule)[j].disk;
    var x :| x in a.evidence.instances && a.evidence.instances[x].session == Some(sid) && x in a.snapshot.mentions;
    assert x in b.evidence.instances && b.evidence.instances[x].session == Some(sid) && x in b.snapshot.mentions;
  }

  /**
    Once a finish gets to return, the snapshot mentions the session's instance in every world
    from then on; this includes the finish that repairs a crash between the two writes.
   */
  lemma {:induction false} FinishReturnsSettled(w: World, schedule: seq<Action>, k: nat, j: nat, p: Pid, f: FinishPoint)
    requires Initial(w) && k <= j <= |schedule|
    requires Run(w, schedule)[k].At(p) == InFinish(f) && f.FinishReturns?
    ensures Settled(Run(w, schedule)[j].disk, f.sid) && f.instance in Run(w, schedule)[j].disk.snapshot.mentions
  {
    InitialInvariant(w);
    RunKeeps(w, schedule);
    var v := Run(w, schedule)[k];
    assert Knows(v.disk, v.used, v.At(p));
    SettledKept(w, schedule, k, j, f.sid);
    NothingLost(w, schedule, k, j);
  }

  /** A finish that cannot take its second claim leaves every other holder as it was and keeps nothing. */
  lemma FailedClaimsReleased(w: World, p: Pid, f: FinishPoint, o: Outside)
    requires Invariant(w) && w.At(p) == InFinish(f) && f.TakesSession? && SessionClaim(f.incident, f.sid) in w.claims
    ensures var w' := Step(w, p, Continue(o));
            && w'.At(p).Idle? && w'.disk == w.disk
            && (forall c :: c in w'.claims <==> c in w.claims && c != IncidentMutation(f.incident))
            && (forall c :: c in w'.claims ==> w'.claims[c] == w.claims[c] != p)
  {
    assert forall c :: c in w.claims && w.claims[c] == p ==> c in Held(w.At(p));
    assert IncidentMutation(f.incident) in Held(w.At(p));
  }

  // ----- one write a step

  /** The snapshot rebuilt from the evidence as it is: one revision on, mentioning every instance. */
  ghost predicate RebuiltOnce(d: Disk, d': Disk)
  {
    && d'.snapshot.revision == d.snapshot.revision + 1 && d'.snapshot.incident == d.evidence.incident
    && d'.snapshot.mentions == d.evidence.instances.Keys
  }

  /** One instance is added, under a new id, of a session that had none. */
  ghost predicate AddedOnce(d: Disk, d': Disk)
  {
    exists i :: && i !in d.evidence.instances && i in d'.evidence.instances
                && d'.evidence.instances == d.evidence.instances[i := d'.evidence.instances[i]]
                && d'.evidence.instances[i].session.Some?
                && !Completed(d.evidence, d'.evidence.instances[i].session.value)
  }

  /** A step writes at most one of the four documents: session directory, evidence, snapshot, journal. */
  lemma WritesOnce(w: World, p: Pid, m: Move)
    requires Invariant(w)
    ensures var (d, d') := (w.disk, Step(w, p, m).disk);
            || d' == d
            || d' == d.(files := d'.files)
            || (d' == d.(evidence := d'.evidence) && AddedOnce(d, d'))
            || (d' == d.(snapshot := d'.snapshot) && RebuiltOnce(d, d'))
            || (d' == d.(journal := d'.journal) && |d'.journal| == |d.journal| + 1)
  {
    assert Knows(w.disk, w.used, w.At(p));
    hide Invariant;
    hide AdvanceBegin;
    hide AdvanceFinish;
    hide AdvanceAbandon;
    hide AdvanceRecover;
    hide AdvanceRecord;
    hide RebuiltOnce;
    hide AddedOnce;
    hide BeginKnows;
    hide FinishKnows;
    hide AbandonKnows;
    hide RecordKnows;
    if m.Continue? {
      match w.At(p) {
        case Idle =>
        case InBegin(b) => BeginWritesFiles(w, p, b, m.outside);
        case InFinish(f) => FinishWritesOnce(w, p, f, m.outside);
        case InAbandon(a) => AbandonWritesFiles(w, p, a, m.outside);
        case InRecover(r) => RecoverWritesFiles(w, p, r, m.outside);
        case InRecord(j) => RecordWritesJournal(w, p, j, m.outside);
      }
    }
  }

  lemma BeginWritesFiles(w: World, p: Pid, b: BeginPoint, o: Outside)
    ensures var d' := AdvanceBegin(w, p, b, o).disk; d' == w.disk.(files := d'.files)
  {
    hide FindRecommendation;
    hide Reconciliation.Relevant;
    hide Reconciliation.Resolved;
  }

  lemma FinishWritesOnce(w: World, p: Pid, f: FinishPoint, o: Outside)
    requires FinishKnows(w.disk, f)
    ensures var (d, d') := (w.disk, AdvanceFinish(w, p, f, o).disk);
            || d' == d
            || (d' == d.(evidence := d'.evidence) && AddedOnce(d, d'))
            || (d' == d.(snapshot := d'.snapshot) && RebuiltOnce(d, d'))
  {
    hide Completed;
    hide Ambiguous;
    hide InstanceOf;
    if f.WritesEvidence? {
      assert AdvanceFinish(w, p, f, o).disk.evidence.instances ==
             w.disk.evidence.instances[f.produced.id := f.produced];
    }
  }

  lemma AbandonWritesFiles(w: World, p: Pid, a: AbandonPoint, o: Outside)
    ensures var d' := AdvanceAbandon(w, p, a, o).disk; d' == w.disk.(files := d'.files)
  {
  }

  lemma RecoverWritesFiles(w: World, p: Pid, r: RecoverPoint, o: Outside)
    ensures var d' := AdvanceRecover(w, p, r, o).disk; d' == w.disk.(files := d'.files)
  {
    hide Reconciliation.Unresolved;
  }

  lemma RecordWritesJournal(w: World, p: Pid, j: RecordPoint, o: Outside)
    ensures var (d, d') := (w.disk, AdvanceRecord(w, p, j, o).disk);
            d' == d || (d' == d.(journal := d'.journal) && |d'.journal| == |d.journal| + 1)
  {
    hide Journal.Decide;
  }

  /** How often a run rewrites the snapshot. */
  ghost function Rebuilds(w: World, schedule: seq<Action>): nat
    decreases |schedule|
  {
    if schedule == [] then 0
    else
      var w' := Step(w, schedule[0].pid, schedule[0].move);
      (if w'.disk.snapshot != w.disk.snapshot then 1 else 0) + Rebuilds(w', schedule[1..])
  }

  /** The snapshot's revision counts its rewrites, whoever makes them and however they interleave. */
  lemma {:induction false} RevisionCounts(w: World, schedule: seq<Action>)
    requires Invariant(w)
    ensures Run(w, schedule)[|schedule|].disk.snapshot.revision == w.disk.snapshot.revision + Rebuilds(w, schedule)
    decreases |schedule|
  {
    hide Invariant;
    hide Step;
    if schedule != [] {
      StepKeeps(w, schedule[0].pid, schedule[0].move);
      WritesOnce(w, schedule[0].pid, schedule[0].move);
      RevisionCounts(Step(w, schedule[0].pid, schedule[0].move), schedule[1..]);
    }
  }
}
