/** At most one unfinished session per incident, target and scope: what keeps it so, slot by slot. */
module ProbeSlots {
  import opened Prelude
  import opened SessionFiles
  import opened ProbeProtocol
  import opened ProbeWrites
  import opened ProbeInvariant
  import opened ProbeSteps
  import opened ProbeSafety

  /** What at most one open session may exist for. */
  datatype Slot = Slot(incident: string, target: string, scope: Scope)

  /** The slot a plan creates a session in; its claim may be on another scope. */
  function SlotOf(plan: Plan): Slot { Slot(plan.incident, plan.task.target, plan.scope) }

  ghost predicate Open(d: Disk, x: string)
  {
    x in d.files.bindings && x in d.files.sessions && !Completed(d.evidence, x) && x !in d.files.abandoned
  }

  ghost predicate InSlot(d: Disk, x: string, slot: Slot)
    requires x in d.files.bindings
  {
    var f := d.files.bindings[x];
    f.Good? && Slot(f.doc.incident, f.doc.target, f.doc.scope) == slot
  }

  ghost predicate OpenIn(d: Disk, x: string, slot: Slot)
  {
    Open(d, x) && InSlot(d, x, slot)
  }

  /** At most one unfinished, non-abandoned session in this slot. */
  ghost predicate Single(d: Disk, slot: Slot)
  {
    forall x, y :: OpenIn(d, x, slot) && OpenIn(d, y, slot) ==> x == y
  }

  /** p has re-read the snapshot under its claim and plans a session in this slot. */
  ghost predicate PlansFor(w: World, p: Pid, slot: Slot)
  {
    w.At(p).InBegin? && PlanOf(w.At(p).b).Some? && SlotOf(PlanOf(w.At(p).b).value) == slot
  }

  /** No two processes plan a session in this slot at once. */
  ghost predicate Undisputed(w: World, slot: Slot)
  {
    forall p, q :: PlansFor(w, p, slot) && PlansFor(w, q, slot) ==> p == q
  }

  /** The open sessions of the slot are still to be examined, or have been found. */
  ghost predicate Clear(d: Disk, slot: Slot, todo: set<string>, clash: bool)
  {
    forall x :: OpenIn(d, x, slot) ==> x in todo || clash
  }

  ghost predicate SlotKnows(d: Disk, b: BeginPoint)
  {
    match b
    case LoadsBinding(plan, _, todo, clash) => Clear(d, SlotOf(plan), todo, clash)
    case LoadsSession(plan, _, todo, clash, _, _) => Clear(d, SlotOf(plan), todo, clash)
    case LoadsAbandonment(plan, _, todo, clash, _, _) => Clear(d, SlotOf(plan), todo, clash)
    case CapturesBaseline(plan) => Clear(d, SlotOf(plan), {}, false)
    case ChecksUnused(plan, _, _) => Clear(d, SlotOf(plan), {}, false)
    case WritesSession(plan, _, _) => Clear(d, SlotOf(plan), {}, false)
    case WritesBinding(plan, _, _) => Clear(d, SlotOf(plan), {}, false)
    case _ => true
  }

  ghost predicate SlotInvariant(w: World, slot: Slot)
  {
    Single(w.disk, slot) && forall p :: PlansFor(w, p, slot) ==> SlotKnows(w.disk, w.At(p).b)
  }

  // ----- what one step does to a slot

  /** Only the binding write of a begin adds a binding. */
  lemma StepBinds(w: World, p: Pid, m: Move, x: string)
    requires Invariant(w) && x in Step(w, p, m).disk.files.bindings && x !in w.disk.files.bindings
    ensures m.Continue? && w.At(p).InBegin? && w.At(p).b.WritesBinding? && w.At(p).b.sid == x
    ensures Step(w, p, m).At(p) == InBegin(BeginReturns(w.At(p).b.plan, x, w.At(p).b.startedAt))
    ensures InSlot(Step(w, p, m).disk, x, SlotOf(w.At(p).b.plan))
    ensures Step(w, p, m).disk.files.bindings.Keys == w.disk.files.bindings.Keys + {x}
  {
    hide Invariant;
    hide Step;
    StepFiles(w, p, m);
  }

  /** An open session that was bound before was open before. */
  lemma OpenBefore(w: World, p: Pid, w': World, x: string, slot: Slot)
    requires Grows(w.disk, w.used, w'.disk, w'.used) && FilesOk(w.disk, w.used)
    requires OpenIn(w'.disk, x, slot) && x in w.disk.files.bindings
    ensures OpenIn(w.disk, x, slot)
  {
    if Completed(w.disk.evidence, x) { CompletedKept(w, p, w', x); }
  }

  lemma OpenBound(d: Disk, slot: Slot)
    ensures forall x :: OpenIn(d, x, slot) ==> x in d.files.bindings
  {
  }

  /** What is clear stays clear while no session is bound in the slot. */
  lemma ClearKept(w: World, p: Pid, w': World, slot: Slot, todo: set<string>, clash: bool)
    requires Grows(w.disk, w.used, w'.disk, w'.used) && FilesOk(w.disk, w.used) && Clear(w.disk, slot, todo, clash)
    requires forall x :: x in w'.disk.files.bindings && x !in w.disk.files.bindings ==> !InSlot(w'.disk, x, slot)
    ensures Clear(w'.disk, slot, todo, clash)
  {
    hide Grows;
    hide FilesOk;
    hide Open;
    OpenBound(w'.disk, slot);
    forall x | OpenIn(w'.disk, x, slot) ensures x in todo || clash {
      OpenBefore(w, p, w', x, slot);
    }
  }

  lemma SingleKept(w: World, p: Pid, w': World, slot: Slot)
    requires Grows(w.disk, w.used, w'.disk, w'.used) && FilesOk(w.disk, w.used) && Single(w.disk, slot)
    requires forall x :: x in w'.disk.files.bindings && x !in w.disk.files.bindings ==> !InSlot(w'.disk, x, slot)
    ensures Single(w'.disk, slot)
  {
    hide Grows;
    hide FilesOk;
    hide Open;
    OpenBound(w'.disk, slot);
    forall x, y | OpenIn(w'.disk, x, slot) && OpenIn(w'.disk, y, slot) ensures x == y {
      OpenBefore(w, p, w', x, slot);
      OpenBefore(w, p, w', y, slot);
    }
  }

  /** Binding a new session in a clear slot leaves one open session in it. */
  lemma SingleAfterBinding(w: World, p: Pid, w': World, slot: Slot, z: string)
    requires Grows(w.disk, w.used, w'.disk, w'.used) && FilesOk(w.disk, w.used) && Clear(w.disk, slot, {}, false)
    requires w'.disk.files.bindings.Keys == w.disk.files.bindings.Keys + {z}
    ensures Single(w'.disk, slot)
  {
    hide Grows;
    hide FilesOk;
    hide Open;
    OpenBound(w'.disk, slot);
    forall x | OpenIn(w'.disk, x, slot) ensures x == z {
      if x in w.disk.files.bindings { OpenBefore(w, p, w', x, slot); }
    }
  }

  /** p's own view of its slot after its step. */
  lemma OwnSlot(w: World, p: Pid, b: BeginPoint, o: Outside)
    requires w.At(p) == InBegin(b) && BeginKnows(w.disk, w.used, b) && FilesOk(w.disk, w.used) && SlotKnows(w.disk, b)
    requires b.ListsBindings? || b.LoadsBinding?
    ensures var w' := AdvanceBegin(w, p, b, o); w'.At(p).InBegin? ==> SlotKnows(w'.disk, w'.At(p).b)
  {
  }

  lemma OwnSlotExamined(w: World, p: Pid, b: BeginPoint, o: Outside)
    requires w.At(p) == InBegin(b) && BeginKnows(w.disk, w.used, b) && FilesOk(w.disk, w.used) && SlotKnows(w.disk, b)
    requires b.LoadsSession? || b.LoadsAbandonment?
    ensures var w' := AdvanceBegin(w, p, b, o); w'.At(p).InBegin? ==> SlotKnows(w'.disk, w'.At(p).b)
  {
  }

  /** Creating the session file does not open it, so the slot stays clear until the binding is written. */
  lemma OwnSlotCreate(w: World, p: Pid, b: BeginPoint, o: Outside)
    requires w.At(p) == InBegin(b) && BeginKnows(w.disk, w.used, b) && FilesOk(w.disk, w.used) && SlotKnows(w.disk, b)
    requires !(b.ListsBindings? || b.LoadsBinding? || b.LoadsSession? || b.LoadsAbandonment?)
    ensures var w' := AdvanceBegin(w, p, b, o); w'.At(p).InBegin? ==> SlotKnows(w'.disk, w'.At(p).b)
  {
  }

  lemma OwnSlotOther(w: World, p: Pid, m: Move)
    requires !(m.Continue? && w.At(p).InBegin?)
    ensures var w' := Step(w, p, m); w'.At(p).InBegin? && w'.At(p) != w.At(p) ==> w'.At(p).b.LoadsSnapshot?
  {
  }

  lemma SameSlot(w: World, p: Pid, m: Move)
    requires w.At(p).InBegin? && !m.Continue? && Step(w, p, m).At(p) == w.At(p)
    ensures Step(w, p, m).disk == w.disk
  {
  }

  /** A begin that steps within its plan keeps its slot; one that makes its plan knows nothing yet. */
  lemma PlanKept(w: World, p: Pid, b: BeginPoint, o: Outside)
    requires w.At(p) == InBegin(b)
    ensures var w' := AdvanceBegin(w, p, b, o);
            w'.At(p).InBegin? && PlanOf(w'.At(p).b).Some? ==>
              if PlanOf(b).Some? then PlanOf(w'.At(p).b) == PlanOf(b) else w'.At(p).b.LoadsCompleted?
  {
    hide FindRecommendation;
  }

  lemma OwnSlotAny(w: World, p: Pid, m: Move, slot: Slot)
    requires Invariant(w) && SlotInvariant(w, slot) && PlansFor(Step(w, p, m), p, slot)
    ensures SlotKnows(Step(w, p, m).disk, Step(w, p, m).At(p).b)
  {
    hide SlotKnows;
    hide AdvanceBegin;
    hide AdvanceFinish;
    hide AdvanceAbandon;
    hide AdvanceRecover;
    hide AdvanceRecord;
    hide ClaimsAgree;
    hide OwnersDiffer;
    hide OutcomesOk;
    hide JournalOk;
    hide FilesOk;
    hide BeginKnows;
    hide Single;
    assert Knows(w.disk, w.used, w.At(p));
    var w' := Step(w, p, m);
    if m.Continue? && w.At(p).InBegin? {
      var b := w.At(p).b;
      PlanKept(w, p, b, m.outside);
      if PlanOf(b).None? {
        NewPlan(w'.disk, w'.At(p).b);
      } else {
        assert PlansFor(w, p, slot);
        if b.ListsBindings? || b.LoadsBinding? {
          OwnSlot(w, p, b, m.outside);
        } else if b.LoadsSession? || b.LoadsAbandonment? {
          OwnSlotExamined(w, p, b, m.outside);
        } else {
          OwnSlotCreate(w, p, b, m.outside);
        }
      }
    } else {
      OwnSlotOther(w, p, m);
      SameSlot(w, p, m);
    }
  }

  lemma NewPlan(d: Disk, b: BeginPoint)
    requires b.LoadsCompleted?
    ensures SlotKnows(d, b)
  {
  }

  /** An undisputed slot one begin plans for gains no session from another process. */
  lemma OtherSlot(w: World, p: Pid, m: Move, q: Pid, slot: Slot)
    requires Invariant(w) && SlotInvariant(w, slot) && Undisputed(w, slot) && p != q && PlansFor(w, q, slot)
    ensures SlotKnows(Step(w, p, m).disk, w.At(q).b)
  {
    hide Step;
    hide Fair;
    hide Entitled;
    hide DiskOk;
    hide Knows;
    hide Clear;
    hide InSlot;
    hide Single;
    hide FilesOk;
    hide OwnersDiffer;
    hide OutcomesOk;
    hide JournalOk;
    hide ClaimsAgree;
    var w', b := Step(w, p, m), w.At(q).b;
    StepSound(w, p, m);
    forall x | x in w'.disk.files.bindings && x !in w.disk.files.bindings ensures !InSlot(w'.disk, x, slot) {
      StepBinds(w, p, m, x);
      OneSlot(w'.disk, x, SlotOf(w.At(p).b.plan), slot);
      assert PlansFor(w, p, SlotOf(w.At(p).b.plan));
    }
    match b
    case LoadsBinding(_, _, todo, clash) => ClearKept(w, p, w', slot, todo, clash);
    case LoadsSession(_, _, todo, clash, _, _) => ClearKept(w, p, w', slot, todo, clash);
    case LoadsAbandonment(_, _, todo, clash, _, _) => ClearKept(w, p, w', slot, todo, clash);
    case _ => if Clear(w.disk, slot, {}, false) { ClearKept(w, p, w', slot, {}, false); }
  }

  lemma OneSlot(d: Disk, x: string, a: Slot, b: Slot)
    requires x in d.files.bindings && InSlot(d, x, a)
    ensures InSlot(d, x, b) <==> a == b
  {
  }

  /** One step keeps an undisputed slot single, with what the begin that plans for it has established. */
  lemma SlotStep(w: World, p: Pid, m: Move, slot: Slot)
    requires Invariant(w) && SlotInvariant(w, slot) && Undisputed(w, slot)
    ensures SlotInvariant(Step(w, p, m), slot)
  {
    hide Step;
    hide Fair;
    hide Entitled;
    hide Knows;
    hide InSlot;
    hide Single;
    hide FilesOk;
    hide OwnersDiffer;
    hide OutcomesOk;
    hide JournalOk;
    hide ClaimsAgree;
    hide OwnsLawfully;
    hide Undisputed;
    hide Clear;
    var w' := Step(w, p, m);
    StepSound(w, p, m);
    OthersStay(w, p, w');
    if x :| x in w'.disk.files.bindings && x !in w.disk.files.bindings && InSlot(w'.disk, x, slot) {
      StepBinds(w, p, m, x);
      OneSlot(w'.disk, x, SlotOf(w.At(p).b.plan), slot);
      assert PlansFor(w, p, slot) && SlotKnows(w.disk, w.At(p).b);
      SingleAfterBinding(w, p, w', slot, x);
    } else {
      SingleKept(w, p, w', slot);
    }
    forall q | PlansFor(w', q, slot) ensures SlotKnows(w'.disk, w'.At(q).b) {
      if q == p {
        OwnSlotAny(w, p, m, slot);
      } else {
        assert PlansFor(w, q, slot);
        OtherSlot(w, p, m, q, slot);
      }
    }
  }

  lemma OthersStay(w: World, p: Pid, w': World)
    requires Fair(w, p, w')
    ensures forall q :: q != p ==> w'.At(q) == w.At(q)
  {
  }

  // ----- runs

  lemma {:induction false} SlotKept(w: World, schedule: seq<Action>, slot: Slot)
    requires Invariant(w) && SlotInvariant(w, slot)
    requires forall i :: 0 <= i < |schedule| ==> Undisputed(Run(w, schedule)[i], slot)
    ensures forall i :: 0 <= i <= |schedule| ==> SlotInvariant(Run(w, schedule)[i], slot)
    decreases |schedule|
  {
    hide Invariant;
    hide SlotInvariant;
    hide Undisputed;
    hide Step;
    if schedule != [] {
      var w' := Step(w, schedule[0].pid, schedule[0].move);
      assert Undisputed(Run(w, schedule)[0], slot);
      StepKeeps(w, schedule[0].pid, schedule[0].move);
      SlotStep(w, schedule[0].pid, schedule[0].move, slot);
      forall i | 0 <= i < |schedule[1..]| ensures Undisputed(Run(w', schedule[1..])[i], slot) {
        assert Run(w, schedule)[i + 1] == Run(w', schedule[1..])[i];
      }
      SlotKept(w', schedule[1..], slot);
      forall i | 0 <= i <= |schedule| ensures SlotInvariant(Run(w, schedule)[i], slot) {
        if i > 0 { assert Run(w, schedule)[i] == Run(w', schedule[1..])[i - 1]; }
      }
    }
  }

  /** As long as no two begins plan for a slot at once, it has at most one open session. */
  lemma {:induction false} UndisputedSingle(w: World, schedule: seq<Action>, k: nat, slot: Slot)
    requires Initial(w) && k <= |schedule|
    requires forall i :: 0 <= i < |schedule| ==> Undisputed(Run(w, schedule)[i], slot)
    ensures Single(Run(w, schedule)[k].disk, slot)
  {
    InitialInvariant(w);
    assert SlotInvariant(w, slot);
    SlotKept(w, schedule, slot);
    assert SlotInvariant(Run(w, schedule)[k], slot);
  }

  // ----- which claims keep a slot undisputed

  /** The claim that a begin for the slot's target takes on this scope. */
  function ClaimOn(slot: Slot, scope: Scope): Claim { TargetScope(slot.incident, slot.target, scope) }

  /** The null scope and the slot's own, named scope are not claimed at once. */
  ghost predicate Unmixed(claims: iset<Claim>, slot: Slot)
  {
    slot.scope.None? || ClaimOn(slot, None) !in claims || ClaimOn(slot, slot.scope) !in claims
  }

  ghost function Claims(w: World): iset<Claim>
  {
    iset c | c in w.claims
  }

  /** A begin that plans for a slot holds the claim on the slot's scope or on the null scope. */
  lemma PlannerHolds(w: World, p: Pid, slot: Slot) returns (c: Claim)
    requires Invariant(w) && PlansFor(w, p, slot)
    ensures c in Held(w.At(p)) && c in w.claims && w.claims[c] == p &&
            (c == ClaimOn(slot, None) || c == ClaimOn(slot, slot.scope))
    ensures c == ClaimOn(slot, PlanOf(w.At(p).b).value.task.scope)
  {
    hide OwnersDiffer;
    hide FilesOk;
    hide OutcomesOk;
    hide JournalOk;
    assert Knows(w.disk, w.used, w.At(p));
    var t := PlanOf(w.At(p).b).value.task;
    c := TargetScope(t.incident, t.target, t.scope);
    assert c in Held(w.At(p));
  }

  lemma PlannersAgree(w: World, p: Pid, q: Pid, slot: Slot)
    requires Invariant(w) && Unmixed(Claims(w), slot) && PlansFor(w, p, slot) && PlansFor(w, q, slot)
    ensures p == q
  {
    hide Held;
    hide Invariant;
    hide PlansFor;
    var c := PlannerHolds(w, p, slot);
    var d := PlannerHolds(w, q, slot);
    assert c in Claims(w) && d in Claims(w);
    assert c == d;
  }

  lemma UnmixedUndisputed(w: World, slot: Slot)
    requires Invariant(w) && Unmixed(Claims(w), slot)
    ensures Undisputed(w, slot)
  {
    hide Invariant;
    hide PlansFor;
    hide Unmixed;
    forall p, q | PlansFor(w, p, slot) && PlansFor(w, q, slot) ensures p == q {
      PlannersAgree(w, p, q, slot);
    }
  }

  /** Every begin works on the scope it claimed. */
  ghost predicate Aligned(w: World)
  {
    forall p :: w.At(p).InBegin? && PlanOf(w.At(p).b).Some? ==>
                  PlanOf(w.At(p).b).value.scope == PlanOf(w.At(p).b).value.task.scope
  }

  /** Where every begin works on the scope it claimed, every slot is undisputed. */
  lemma AlignedUndisputed(w: World, slot: Slot)
    requires Invariant(w) && Aligned(w)
    ensures Undisputed(w, slot)
  {
    hide Invariant;
    hide Held;
    forall p, q | PlansFor(w, p, slot) && PlansFor(w, q, slot) ensures p == q {
      var c := PlannerHolds(w, p, slot);
      var d := PlannerHolds(w, q, slot);
      assert c == ClaimOn(slot, slot.scope) == d;
    }
  }

  ghost predicate NeverMixed(w: World, schedule: seq<Action>, slot: Slot)
  {
    forall i :: 0 <= i < |schedule| ==> Unmixed(Claims(Run(w, schedule)[i]), slot)
  }

  /** A slot stays single over every run in which the null scope and its own are never claimed at once. */
  lemma {:induction false} SlotSingle(w: World, schedule: seq<Action>, k: nat, slot: Slot)
    requires Initial(w) && k <= |schedule| && NeverMixed(w, schedule, slot)
    ensures Single(Run(w, schedule)[k].disk, slot)
  {
    hide Initial;
    hide Single;
    hide Unmixed;
    hide Undisputed;
    InitialInvariant(w);
    RunKeeps(w, schedule);
    forall i | 0 <= i < |schedule| ensures Undisputed(Run(w, schedule)[i], slot) {
      UnmixedUndisputed(Run(w, schedule)[i], slot);
    }
    UndisputedSingle(w, schedule, k, slot);
  }

  /** The null slot stays single over every run. */
  lemma {:induction false} NullSlotSingle(w: World, schedule: seq<Action>, k: nat, incident: string, target: string)
    requires Initial(w) && k <= |schedule|
    ensures Single(Run(w, schedule)[k].disk, Slot(incident, target, None))
  {
    SlotSingle(w, schedule, k, Slot(incident, target, None));
  }

  /** Re-reading under a claim is sure to return the claimed scope exactly when that scope is not null. */
  lemma RereadKeepsScopeIff(target: string, claimed: Scope)
    ensures claimed.Some? <==>
            forall s: Snapshot :: FindRecommendation(s, target, claimed).Some? ==>
              FindRecommendation(s, target, claimed).value.scope == claimed
  {
    if claimed.None? {
      var r := Recommendation(Some("scope"), target, "probe", true);
      var s := Snapshot("incident", 0, {}, [r]);
      assert OnlyFits(s.recommended, target, claimed, 0);
      assert FindRecommendation(s, target, claimed) == Some(r);
    }
  }
}
