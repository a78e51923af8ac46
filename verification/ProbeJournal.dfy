/** The hash-chained journal file behind the protocol's list of journal entries. */
module ProbeJournal {
  import Journal
  import opened ProbeProtocol
  import opened ProbeInvariant
  import opened ProbeSteps
  import opened ProbeSafety
  import opened ProbeSlots

  type File = seq<Journal.Event<Report>>

  ghost predicate Appends(w: World, a: Action)
  {
    a.move.Continue? && w.At(a.pid).InRecord? && w.At(a.pid).j.AppendsEvent?
  }

  /** The journal file after one step: what `append_probe_workflow_event` makes of it, signed at that time. */
  ghost function FileStep(h: Journal.Hash<Report>, file: File, w: World, a: Action): File
  {
    if Appends(w, a) then Journal.Appended(h, file, w.At(a.pid).j.entry, a.move.outside.now) else file
  }

  ghost function FileAfter(h: Journal.Hash<Report>, file: File, w: World, schedule: seq<Action>): File
    decreases |schedule|
  {
    if schedule == [] then file
    else FileAfter(h, FileStep(h, file, w, schedule[0]), Step(w, schedule[0].pid, schedule[0].move), schedule[1..])
  }

  /** The file holds the world's entries, in order, as a verified chain. */
  ghost predicate Chained(h: Journal.Hash<Report>, file: File, w: World)
  {
    Journal.Entries(file) == w.disk.journal && Journal.Verified(h, file)
  }

  /** An entry about to be appended names its incident. */
  ghost predicate NamesIncidents(w: World)
  {
    forall p :: w.At(p).InRecord? && w.At(p).j.AppendsEvent? ==> w.At(p).j.entry.incident != ""
  }

  lemma OnlyAppends(w: World, p: Pid, m: Move)
    requires Invariant(w) && Step(w, p, m).disk.journal != w.disk.journal
    ensures Appends(w, Action(p, m))
  {
    hide Invariant;
    hide Fair;
    hide Grows;
    hide DiskOk;
    hide Knows;
    hide AdvanceBegin;
    hide AdvanceFinish;
    hide AdvanceAbandon;
    hide AdvanceRecover;
    StepSound(w, p, m);
    assert WorkflowJournal in Held(w.At(p));
  }

  lemma OwnEntry(w: World, p: Pid, m: Move)
    ensures var q := Step(w, p, m).At(p);
            q.InRecord? && q.j.AppendsEvent? && q != w.At(p) ==> q.j.entry.incident != ""
  {
    hide Journal.Decide;
  }

  lemma FileStepKeeps(h: Journal.Hash<Report>, file: File, w: World, p: Pid, m: Move)
    requires Invariant(w) && NamesIncidents(w) && Chained(h, file, w)
    ensures Chained(h, FileStep(h, file, w, Action(p, m)), Step(w, p, m)) && NamesIncidents(Step(w, p, m))
  {
    hide Fair;
    hide Grows;
    hide Entitled;
    hide DiskOk;
    hide AdvanceBegin;
    hide AdvanceFinish;
    hide AdvanceAbandon;
    hide AdvanceRecover;
    hide ClaimsAgree;
    hide OwnersDiffer;
    hide FilesOk;
    hide OutcomesOk;
    var w' := Step(w, p, m);
    if Appends(w, Action(p, m)) {
      var entry := w.At(p).j.entry;
      assert Knows(w.disk, w.used, w.At(p));
      Journal.AppendedKeeps(h, file, entry, m.outside.now);
      assert Journal.Entries(FileStep(h, file, w, Action(p, m))) == w.disk.journal + [entry];
    } else if w'.disk.journal != w.disk.journal {
      OnlyAppends(w, p, m);
    }
    StepSound(w, p, m);
    OthersStay(w, p, w');
    OwnEntry(w, p, m);
  }

  lemma {:induction false} FileKept(h: Journal.Hash<Report>, file: File, w: World, schedule: seq<Action>)
    requires Invariant(w) && NamesIncidents(w) && Chained(h, file, w)
    ensures Chained(h, FileAfter(h, file, w, schedule), Run(w, schedule)[|schedule|])
    decreases |schedule|
  {
    hide Invariant;
    hide Step;
    hide Chained;
    hide NamesIncidents;
    hide FileStep;
    if schedule != [] {
      var p, m := schedule[0].pid, schedule[0].move;
      assert schedule[0] == Action(p, m);
      StepKeeps(w, p, m);
      FileStepKeeps(h, file, w, p, m);
      FileKept(h, FileStep(h, file, w, schedule[0]), Step(w, p, m), schedule[1..]);
    }
  }

  /**
    In every reachable world the journal file written along the way, signed with any hash, holds
    exactly the world's entries and verifies.
   */
  lemma {:induction false} JournalVerifies(h: Journal.Hash<Report>, w: World, schedule: seq<Action>)
    requires Initial(w)
    ensures Chained(h, FileAfter(h, [], w, schedule), Run(w, schedule)[|schedule|])
  {
    InitialInvariant(w);
    FileKept(h, [], w, schedule);
  }
}
