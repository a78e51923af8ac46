/** A begin interrupted between its two files blocks later begins until it is reconciled. */
module ProbeRecovery {
  import opened Prelude
  import opened SessionFiles
  import Reconciliation
  import opened ProbeProtocol
  import opened ProbeWrites
  import opened ProbeInvariant
  import opened ProbeSteps
  import opened ProbeSafety
  import opened ProbeSlots

  /** Session x has one of its two files, and no marker discards it for the current incident. */
  ghost predicate Stuck(d: Disk, x: string)
  {
    Reconciliation.Unresolved(d.files, Some(d.evidence.incident), x).Some?
  }

  ghost function KindOf(d: Disk, x: string): IssueKind
  {
    if x in d.files.sessions then OrphanSession else OrphanBinding
  }

  /** p has not got past the scan, and if it is scanning, x is among what it has still to judge. */
  ghost predicate Stopped(w: World, p: Pid, x: string)
  {
    w.At(p).InBegin? ==>
      match w.At(p).b
      case ScansOrphans(_, _, orphans) => x in orphans && orphans[x] == KindOf(w.disk, x)
      case ScansMarker(_, _, orphans, issue) =>
        && x in orphans && orphans[x] == KindOf(w.disk, x)
        && (issue.sessionId == x ==>
            Reconciliation.Unresolved(w.disk.files, Some(w.disk.evidence.incident), x) == Some(issue))
      case LoadsSnapshot(_, _) => true
      case LoadsEvidence(_, _, _) => true
      case TakesClaim(_) => true
      case ReloadsSnapshot(_) => true
      case ReloadsEvidence(_, _) => true
      case LoadsCompleted(_) => true
      case ListsFiles(_, _) => true
      case _ => false
  }

  lemma StoppedStep(w: World, p: Pid, b: BeginPoint, o: Outside, x: string)
    requires w.At(p) == InBegin(b) && BeginKnows(w.disk, w.used, b) && Stopped(w, p, x) && Stuck(w.disk, x)
    ensures var w' := AdvanceBegin(w, p, b, o); w'.disk == w.disk && Stopped(w', p, x)
  {
  }

  /** While x stays stuck, its surviving file is the same one. */
  lemma StuckSame(w: World, w': World, x: string)
    requires Grows(w.disk, w.used, w'.disk, w'.used) && Stuck(w.disk, x) && Stuck(w'.disk, x)
    ensures KindOf(w'.disk, x) == KindOf(w.disk, x)
    ensures Reconciliation.Unresolved(w'.disk.files, Some(w'.disk.evidence.incident), x) ==
            Reconciliation.Unresolved(w.disk.files, Some(w.disk.evidence.incident), x)
  {
  }

  lemma StoppedKept(w: World, p: Pid, m: Move, q: Pid, x: string)
    requires Invariant(w) && Stopped(w, q, x) && Stuck(w.disk, x) && Stuck(Step(w, p, m).disk, x)
    ensures Stopped(Step(w, p, m), q, x)
  {
    hide Invariant;
    hide Fair;
    hide Grows;
    hide Entitled;
    hide DiskOk;
    hide Stuck;
    hide AdvanceBegin;
    hide AdvanceFinish;
    hide AdvanceAbandon;
    hide AdvanceRecover;
    hide AdvanceRecord;
    hide BeginKnows;
    KnowsOne(w, q);
    StepSound(w, p, m);
    var w' := Step(w, p, m);
    StuckSame(w, w', x);
    OthersStay(w, p, w');
    if q == p {
      if m.Continue? && w.At(p).InBegin? {
        StoppedStep(w, p, w.At(p).b, m.outside, x);
      } else {
        OwnSlotOther(w, p, m);
        if w'.At(p).InBegin? && w'.At(p) == w.At(p) { SameSlot(w, p, m); }
      }
    }
  }

  lemma KnowsOne(w: World, p: Pid)
    requires Invariant(w)
    ensures Knows(w.disk, w.used, w.At(p))
  {
  }

  // ----- what ends being stuck

  /** x is a partial workflow that blocks, and nobody is about to complete it. */
  ghost predicate Abandoned(w: World, x: string)
  {
    Stuck(w.disk, x) && x in w.used && forall p :: Owned(w.At(p)) != Some(x)
  }

  /** This step writes the reconciliation marker of x. */
  ghost predicate Reconciles(w: World, a: Action, x: string)
  {
    a.move.Continue? && w.At(a.pid).InRecover? && w.At(a.pid).r.WritesMarker? && w.At(a.pid).r.sid == x
  }

  /** The two files of x and its marker decide whether it is stuck. */
  lemma StuckByFiles(d: Disk, d': Disk, x: string)
    requires Stuck(d, x) && d'.evidence.incident == d.evidence.incident
    requires x in d'.files.sessions <==> x in d.files.sessions
    requires x in d'.files.bindings <==> x in d.files.bindings
    requires x in d.files.sessions ==> d'.files.sessions[x] == d.files.sessions[x]
    requires x in d.files.bindings ==> d'.files.bindings[x] == d.files.bindings[x]
    requires x in d'.files.reconciled <==> x in d.files.reconciled
    requires x in d.files.reconciled ==> d'.files.reconciled[x] == d.files.reconciled[x]
    ensures Stuck(d', x)
  {
  }

  /** Only the owner of x adds one of its files, and only a reconciliation of x writes its marker. */
  lemma FilesOfOthers(w: World, p: Pid, m: Move, x: string)
    requires Invariant(w) && Owned(w.At(p)) != Some(x) && !Reconciles(w, Action(p, m), x)
    ensures var d, d' := w.disk.files, Step(w, p, m).disk.files;
            && (x in d'.sessions <==> x in d.sessions) && (x in d'.bindings <==> x in d.bindings)
            && (x in d'.reconciled <==> x in d.reconciled)
            && (x in d.reconciled ==> d'.reconciled[x] == d.reconciled[x])
  {
    hide Invariant;
    hide Step;
    StepFiles(w, p, m);
  }

  /** Nobody but a reconciliation of x makes an abandoned partial workflow stop blocking. */
  lemma AbandonedKept(w: World, p: Pid, m: Move, x: string)
    requires Invariant(w) && Abandoned(w, x) && !Reconciles(w, Action(p, m), x)
    ensures Abandoned(Step(w, p, m), x)
  {
    hide Invariant;
    hide Step;
    hide Stuck;
    hide Fair;
    hide Entitled;
    hide DiskOk;
    hide Knows;
    hide Owned;
    var w' := Step(w, p, m);
    FilesOfOthers(w, p, m, x);
    StepSound(w, p, m);
    StuckByFiles(w.disk, w'.disk, x);
    forall q ensures Owned(w'.At(q)) != Some(x) { NobodyElse(w, p, w', q, x); }
  }

  lemma NobodyElse(w: World, p: Pid, w': World, q: Pid, x: string)
    requires Fair(w, p, w') && x in w.used && forall r :: Owned(w.At(r)) != Some(x)
    ensures Owned(w'.At(q)) != Some(x)
  {
    hide Owned;
    assert Owned(w.At(p)) != Some(x) && Owned(w.At(q)) != Some(x);
  }

  /**
    As long as nobody reconciles x, it goes on blocking: no begin that had not yet passed
    its scan gets past it, so it creates no session.
   */
  lemma {:induction false} StuckBlocksBegins(w: World, schedule: seq<Action>, q: Pid, x: string, k: nat)
    requires Invariant(w) && Abandoned(w, x) && Stopped(w, q, x) && k <= |schedule|
    requires forall i :: 0 <= i < k ==> !Reconciles(Run(w, schedule)[i], schedule[i], x)
    ensures Abandoned(Run(w, schedule)[k], x) && Stopped(Run(w, schedule)[k], q, x)
    decreases |schedule|
  {
    hide Invariant;
    hide Step;
    hide Stuck;
    hide Stopped;
    hide Reconciles;
    if k > 0 {
      var p, m := schedule[0].pid, schedule[0].move;
      var w' := Step(w, p, m);
      assert Run(w, schedule)[0] == w && schedule[0] == Action(p, m);
      StepKeeps(w, p, m);
      AbandonedKept(w, p, m, x);
      StoppedKept(w, p, m, q, x);
      forall i | 0 <= i < k - 1 ensures !Reconciles(Run(w', schedule[1..])[i], schedule[1..][i], x) {
        assert Run(w, schedule)[i + 1] == Run(w', schedule[1..])[i];
      }
      StuckBlocksBegins(w', schedule[1..], q, x, k - 1);
      assert Run(w, schedule)[k] == Run(w', schedule[1..])[k - 1];
    }
  }

  // ----- from the crash on

  /** A marker left from earlier discards exactly the session file the begin has just written. */
  ghost predicate Discarded(d: Disk, x: string)
    requires x in d.files.sessions
  {
    var issue := Reconciliation.IssueFor(x, LoneSession(d.files.sessions[x]));
    x in d.files.reconciled && Reconciliation.Matches(d.files.reconciled[x], issue)
  }

  /** A crash between the session write and the binding write leaves the session stuck unless a marker discards it. */
  lemma CrashLeavesStuck(w: World, p: Pid)
    requires Invariant(w) && w.At(p).InBegin? && w.At(p).b.WritesBinding?
    ensures var x := w.At(p).b.sid;
            && x in w.disk.files.sessions
            && (Stuck(Step(w, p, Crash).disk, x) <==> !Discarded(w.disk, x))
            && (Abandoned(Step(w, p, Crash), x) <==> !Discarded(w.disk, x))
  {
    var x := w.At(p).b.sid;
    KnowsOne(w, p);
    assert SessionOk(w.disk, x);
    assert Owned(w.At(p)) == Some(x);
    var w' := Step(w, p, Crash);
    assert w'.disk == w.disk;
    forall q ensures Owned(w'.At(q)) != Some(x) {
      if q != p { assert w'.At(q) == w.At(q); }
    }
  }

  /**
    Over every run in which a begin crashes between its two writes at step j, no begin that
    had not passed its scan gets past it in any later world before a reconciliation of that session.
   */
  lemma {:induction false} CrashBlocksBegins(w: World, schedule: seq<Action>, j: nat, k: nat, q: Pid)
    requires Initial(w) && j < k <= |schedule| && schedule[j].move.Crash?
    requires Run(w, schedule)[j].At(schedule[j].pid).InBegin? &&
             Run(w, schedule)[j].At(schedule[j].pid).b.WritesBinding?
    requires var x := Run(w, schedule)[j].At(schedule[j].pid).b.sid;
             && x in Run(w, schedule)[j].disk.files.sessions && !Discarded(Run(w, schedule)[j].disk, x)
             && Stopped(Run(w, schedule)[j + 1], q, x)
             && forall i :: j < i < k ==> !Reconciles(Run(w, schedule)[i], schedule[i], x)
    ensures var x := Run(w, schedule)[j].At(schedule[j].pid).b.sid;
            Stuck(Run(w, schedule)[k].disk, x) && Stopped(Run(w, schedule)[k], q, x)
  {
    hide Invariant;
    hide Step;
    hide Stuck;
    hide Stopped;
    hide Reconciles;
    hide Discarded;
    hide Initial;
    InitialInvariant(w);
    RunKeeps(w, schedule);
    var u, p := Run(w, schedule)[j], schedule[j].pid;
    var x := u.At(p).b.sid;
    CrashLeavesStuck(u, p);
    RunSplits(w, schedule, j);
    var rest, u' := schedule[j + 1..], Run(w, schedule)[j + 1];
    assert u' == Step(u, p, Crash);
    forall i | 0 <= i < k - j - 1 ensures !Reconciles(Run(u', rest)[i], rest[i], x) {
      assert Run(u', rest)[i] == Run(w, schedule)[j + 1 + i] && rest[i] == schedule[j + 1 + i];
    }
    StuckBlocksBegins(u', rest, q, x, k - j - 1);
  }

  /** The tail of a run is the run of the tail. */
  lemma {:induction false} RunSplits(w: World, schedule: seq<Action>, j: nat)
    requires j < |schedule|
    ensures Run(w, schedule)[j + 1] == Step(Run(w, schedule)[j], schedule[j].pid, schedule[j].move)
    ensures Run(Run(w, schedule)[j + 1], schedule[j + 1..]) == Run(w, schedule)[j + 1..]
    decreases |schedule|
  {
    hide Step;
    var w' := Step(w, schedule[0].pid, schedule[0].move);
    if j == 0 {
      assert Run(w, schedule)[1..] == Run(w', schedule[1..]);
    } else {
      RunSplits(w', schedule[1..], j - 1);
      assert schedule[1..][j..] == schedule[j + 1..];
      assert Run(w, schedule)[j] == Run(w', schedule[1..])[j - 1];
      assert Run(w, schedule)[j + 1] == Run(w', schedule[1..])[j];
      assert Run(w, schedule)[j + 1..] == Run(w', schedule[1..])[j..];
    }
  }

  // ----- what a marker discards

  /** A reconciliation that is about to write a marker has found the session's file. */
  ghost predicate Marking(w: World)
  {
    forall p :: w.At(p).InRecover? && w.At(p).r.WritesMarker? ==> w.At(p).r.sid in w.disk.files.sessions
  }

  lemma MarkingOwn(w: World, p: Pid, m: Move)
    requires FilesOk(w.disk, w.used) && Marking(w)
    ensures var q := Step(w, p, m).At(p); q.InRecover? && q.r.WritesMarker? ==> q.r.sid in w.disk.files.sessions
  {
    hide AdvanceBegin;
    hide AdvanceFinish;
    hide AdvanceAbandon;
    hide AdvanceRecord;
    if m.Continue? && !w.At(p).InRecover? { NotRecovering(w, p, m.outside); }
  }

  /** Only a reconciliation goes on to reconcile. */
  lemma NotRecovering(w: World, p: Pid, o: Outside)
    requires !w.At(p).InRecover?
    ensures !Step(w, p, Continue(o)).At(p).InRecover?
  {
  }

  lemma MarkingKept(w: World, p: Pid, m: Move)
    requires Invariant(w) && Marking(w)
    ensures Marking(Step(w, p, m))
  {
    hide Step;
    hide Fair;
    hide Entitled;
    hide DiskOk;
    hide Knows;
    StepSound(w, p, m);
    MarkingOwn(w, p, m);
    hide FilesOk;
    OthersStay(w, p, Step(w, p, m));
  }

  lemma {:induction false} RunMarks(w: World, schedule: seq<Action>, j: nat)
    requires Invariant(w) && Marking(w) && j <= |schedule|
    ensures Marking(Run(w, schedule)[j])
    decreases |schedule|
  {
    hide Invariant;
    hide Step;
    hide Marking;
    if j > 0 {
      StepKeeps(w, schedule[0].pid, schedule[0].move);
      MarkingKept(w, schedule[0].pid, schedule[0].move);
      RunMarks(Step(w, schedule[0].pid, schedule[0].move), schedule[1..], j - 1);
    }
  }

  /** A begin is about to bind x. */
  ghost predicate Binding(w: World, x: string)
  {
    exists q :: BindsNext(w, q, x)
  }

  ghost predicate BindsNext(w: World, q: Pid, x: string)
  {
    w.At(q).InBegin? && w.At(q).b.WritesBinding? && w.At(q).b.sid == x
  }

  /** x is not open, and nobody is about to open it. */
  ghost predicate Closed(w: World, x: string)
  {
    x in w.used && !Open(w.disk, x) && forall q :: Owned(w.At(q)) != Some(x)
  }

  lemma ClosedKept(w: World, p: Pid, m: Move, x: string)
    requires Invariant(w) && Closed(w, x)
    ensures Closed(Step(w, p, m), x)
  {
    hide Invariant;
    hide Step;
    hide Entitled;
    hide DiskOk;
    hide Knows;
    hide Owned;
    var w' := Step(w, p, m);
    StepSound(w, p, m);
    forall q ensures Owned(w'.At(q)) != Some(x) { NobodyElse(w, p, w', q, x); }
    if Open(w'.disk, x) { StaysClosed(w, p, m, x); }
  }

  lemma StaysClosed(w: World, p: Pid, m: Move, x: string)
    requires Invariant(w) && Closed(w, x)
    ensures !Open(Step(w, p, m).disk, x)
  {
    hide Step;
    hide Fair;
    hide Entitled;
    hide Knows;
    var w' := Step(w, p, m);
    StepSound(w, p, m);
    if Open(w'.disk, x) && x !in w.disk.files.bindings { StepBinds(w, p, m, x); }
    hide OutcomesOk;
    hide JournalOk;
    if Completed(w.disk.evidence, x) { CompletedKept(w, p, w', x); }
    assert x in w.disk.files.bindings ==> x in w.disk.files.sessions;
  }

  lemma {:induction false} NeverOpens(w: World, schedule: seq<Action>, x: string, k: nat)
    requires Invariant(w) && Closed(w, x) && k <= |schedule|
    ensures !Open(Run(w, schedule)[k].disk, x)
    decreases |schedule|
  {
    hide Invariant;
    hide Step;
    hide Open;
    if k > 0 {
      StepKeeps(w, schedule[0].pid, schedule[0].move);
      ClosedKept(w, schedule[0].pid, schedule[0].move, x);
      NeverOpens(Step(w, schedule[0].pid, schedule[0].move), schedule[1..], x, k - 1);
    }
  }

  /** Some run from here comes through a world in which x is open. */
  ghost predicate OpensLater(w: World, x: string)
  {
    exists s, k: nat :: OpensAt(w, s, k, x)
  }

  ghost predicate OpensAt(w: World, s: seq<Action>, k: nat, x: string)
  {
    k <= |s| && Open(Run(w, s)[k].disk, x)
  }

  lemma BindingOpens(w: World, q: Pid, o: Outside, x: string)
    requires BindsNext(w, q, x) && BeginKnows(w.disk, w.used, w.At(q).b)
    ensures Open(Step(w, q, Continue(o)).disk, x)
  {
  }

  lemma OpensNext(w: World, q: Pid, x: string)
    requires Invariant(w) && BindsNext(w, q, x)
    ensures OpensLater(w, x)
  {
    KnowsOne(w, q);
    var o := Outside(0, "", true, "", Instance("", None, None, "", false, 0, None, ""), []);
    BindingOpens(w, q, o, x);
    hide Invariant;
    hide Step;
    hide Open;
    var s := [Action(q, Continue(o))];
    assert Run(w, s)[1] == Step(w, q, Continue(o));
    assert OpensAt(w, s, 1, x);
  }

  /** The marker write leaves everybody else where they are, and changes no session, binding or outcome. */
  lemma MarkerOnly(w: World, a: Action, x: string)
    requires Reconciles(w, a, x)
    ensures var w' := Step(w, a.pid, a.move);
            && (Open(w'.disk, x) <==> Open(w.disk, x)) && w'.used == w.used
            && (forall q :: q != a.pid ==> w'.At(q) == w.At(q)) && Owned(w'.At(a.pid)).None?
            && w.At(a.pid).InRecover? && !w'.At(a.pid).InBegin?
  {
  }

  /** An owner of a session whose file exists is about to bind it. */
  lemma OwnerBinds(w: World, q: Pid, x: string)
    requires Invariant(w) && x in w.disk.files.sessions && Owned(w.At(q)) == Some(x)
    ensures BindsNext(w, q, x)
  {
    KnowsOne(w, q);
  }

  /**
    After the marker write that discards session x, some run opens x if and only if, at that write,
    x was open already or a begin was about to bind it.
   */
  lemma {:induction false} DiscardedOpensIff(w: World, schedule: seq<Action>, j: nat, x: string)
    requires Initial(w) && j < |schedule| && Reconciles(Run(w, schedule)[j], schedule[j], x)
    ensures OpensLater(Run(w, schedule)[j + 1], x) <==>
            Open(Run(w, schedule)[j].disk, x) || Binding(Run(w, schedule)[j], x)
  {
    hide Invariant;
    hide Step;
    hide Open;
    hide Owned;
    hide Initial;
    InitialMarks(w);
    InitialInvariant(w);
    RunKeeps(w, schedule);
    RunMarks(w, schedule, j);
    RunSplits(w, schedule, j);
    var u, a, v := Run(w, schedule)[j], schedule[j], Run(w, schedule)[j + 1];
    assert Invariant(u) && Invariant(v);
    MarkedOpensIff(u, a, v, x);
  }

  lemma InitialMarks(w: World)
    requires Initial(w)
    ensures Marking(w)
  {
  }

  lemma MarkedOpensIff(u: World, a: Action, v: World, x: string)
    requires Invariant(u) && Invariant(v) && Marking(u) && Reconciles(u, a, x) && v == Step(u, a.pid, a.move)
    ensures OpensLater(v, x) <==> Open(u.disk, x) || Binding(u, x)
  {
    MarkerOnly(u, a, x);
    assert x in u.disk.files.sessions && x in u.used;
    hide Step;
    hide Open;
    if Open(u.disk, x) {
      assert OpensAt(v, [], 0, x);
    } else if Binding(u, x) {
      var q :| BindsNext(u, q, x);
      OpensNext(v, q, x);
    } else {
      forall q ensures Owned(v.At(q)) != Some(x) {
        if q != a.pid && Owned(u.At(q)) == Some(x) { OwnerBinds(u, q, x); }
      }
      hide Invariant;
      forall s, k: nat ensures !OpensAt(v, s, k, x) {
        if k <= |s| { NeverOpens(v, s, x, k); }
      }
    }
  }
}
