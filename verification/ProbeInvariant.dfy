/**
  What every step of the probe-session protocol keeps, whatever the
  interleaving and wherever processes crash.
 */
module ProbeInvariant {
  import opened Prelude
  import opened SessionFiles
  import Journal
  import opened ProbeProtocol

  // ----- claims

  function TaskOf(b: BeginPoint): (r: Option<Task>)
  {
    match b
    case ReloadsSnapshot(task) => Some(task)
    case ReloadsEvidence(task, _) => Some(task)
    case _ => if PlanOf(b).Some? then Some(PlanOf(b).value.task) else None
  }

  /** The plan of a begin that has re-read the snapshot under its claim. */
  function PlanOf(b: BeginPoint): (r: Option<Plan>)
  {
    if b.LoadsSnapshot? || b.LoadsEvidence? || b.TakesClaim? || b.ReloadsSnapshot? || b.ReloadsEvidence? then None
    else Some(b.plan)
  }

  /** The claims a process holds at each point. */
  function Held(proc: Proc): set<Claim>
  {
    match proc
    case Idle => {}
    case InBegin(b) =>
      (match TaskOf(b) case None => {} case Some(t) => {TargetScope(t.incident, t.target, t.scope)})
    case InFinish(f) =>
      if f.FindsIncident? || f.TakesIncident? then {}
      else if f.TakesSession? then {IncidentMutation(f.incident)}
      else {IncidentMutation(f.incident), SessionClaim(f.incident, f.sid)}
    case InAbandon(a) => if a.FindsClaim? || a.TakesAbandonClaim? then {} else {SessionClaim(a.incident, a.sid)}
    case InRecover(r) => if r.TakesRecovery? then {} else {WorkflowRecovery(r.sid)}
    case InRecord(j) => if j.ReadsJournal? || j.AppendsEvent? || j.RecordReturns? then {WorkflowJournal} else {}
  }

  /** The lock files say exactly who holds what; in particular no claim has two holders. */
  ghost predicate ClaimsAgree(w: World)
  {
    && (forall c :: c in w.claims ==> c in Held(w.At(w.claims[c])))
    && (forall p, c :: c in Held(w.At(p)) ==> c in w.claims && w.claims[c] == p)
  }

  // ----- files

  /** The session id a begin has generated and not yet bound. */
  function Owned(proc: Proc): (r: Option<string>)
  {
    match proc
    case InBegin(ChecksUnused(_, sid, _)) => Some(sid)
    case InBegin(WritesSession(_, sid, _)) => Some(sid)
    case InBegin(WritesBinding(_, sid, _)) => Some(sid)
    case _ => None
  }

  ghost predicate OwnersDiffer(w: World)
  {
    forall p, q :: p != q && Owned(w.At(p)).Some? ==> Owned(w.At(p)) != Owned(w.At(q))
  }

  ghost predicate FilesOk(d: Disk, used: set<string>)
  {
    && (forall x :: x in d.files.sessions ==> x in used && SessionOk(d, x))
    && (forall x :: x in d.files.bindings ==> x in d.files.sessions && BindingOk(d, x))
    && (forall x :: x in d.files.abandoned ==> x in used)
  }

  ghost predicate SessionOk(d: Disk, x: string)
    requires x in d.files.sessions
  {
    var f := d.files.sessions[x];
    f.Good? && f.doc.sessionId == x && f.doc.incident == d.evidence.incident
  }

  ghost predicate BindingOk(d: Disk, x: string)
    requires x in d.files.bindings
  {
    var f := d.files.bindings[x];
    f.Good? && f.doc.sessionId == x && f.doc.incident == d.evidence.incident
  }

  /** Completion and abandonment exclude each other, and a session completes at most once. */
  ghost predicate OutcomesOk(d: Disk, used: set<string>)
  {
    && (forall i :: i in d.evidence.instances ==> d.evidence.instances[i].id == i)
    && (forall x :: Completed(d.evidence, x) ==> x in used && x !in d.files.abandoned && !Ambiguous(d.evidence, x))
    && d.snapshot.mentions <= d.evidence.instances.Keys
  }

  ghost predicate JournalOk(d: Disk)
  {
    && Journal.OncePerTransition(d.journal)
    && (forall i :: 0 <= i < |d.journal| ==> Backed(d, d.journal[i].kind, d.journal[i].session))
  }

  /** What a finish or abandon event reports is on disk. */
  ghost predicate Backed(d: Disk, kind: Journal.EventType, sid: string)
  {
    && (kind.Finish? ==> Completed(d.evidence, sid))
    && (kind.Abandon? ==> sid in d.files.abandoned)
  }

  // ----- what a process knows

  ghost predicate PlanKnows(d: Disk, plan: Plan)
  {
    && plan.task.incident == d.evidence.incident && plan.incident == d.evidence.incident
    && (plan.task.scope.Some? ==> plan.scope == plan.task.scope)
  }

  ghost predicate AllCompleted(d: Disk, completed: set<string>)
  {
    forall x :: x in completed ==> Completed(d.evidence, x)
  }

  ghost predicate Untouched(d: Disk, used: set<string>, sid: string)
  {
    sid in used && sid !in d.files.bindings && sid !in d.files.abandoned && !Completed(d.evidence, sid)
  }

  ghost predicate BeginKnows(d: Disk, used: set<string>, b: BeginPoint)
  {
    && (TaskOf(b).Some? ==> TaskOf(b).value.incident == d.evidence.incident)
    && (PlanOf(b).Some? ==> PlanKnows(d, PlanOf(b).value))
    && match b
       case TakesClaim(task) => task.incident == d.evidence.incident
       case ListsFiles(_, completed) => AllCompleted(d, completed)
       case ScansOrphans(_, completed, _) => AllCompleted(d, completed)
       case ScansMarker(_, completed, _, _) => AllCompleted(d, completed)
       case ListsBindings(_, completed) => AllCompleted(d, completed)
       case LoadsBinding(_, completed, _, _) => AllCompleted(d, completed)
       case LoadsSession(_, completed, todo, _, sid, binding) =>
         AllCompleted(d, completed) && sid in d.files.bindings && d.files.bindings[sid] == Good(binding)
       case LoadsAbandonment(_, completed, todo, _, sid, binding) =>
         AllCompleted(d, completed) && sid in d.files.bindings && d.files.bindings[sid] == Good(binding)
       case ChecksUnused(_, sid, _) => Untouched(d, used, sid) && sid !in d.files.sessions
       case WritesSession(_, sid, _) => Untouched(d, used, sid) && sid !in d.files.sessions
       case WritesBinding(_, sid, _) => Untouched(d, used, sid) && sid in d.files.sessions
       case _ => true
  }

  ghost predicate FinishKnows(d: Disk, f: FinishPoint)
  {
    && (!f.FindsIncident? ==> f.incident == d.evidence.incident && f.sid in d.files.bindings)
    && match f
       case FinishEvidence(sid, _, _, session) => session.sessionId == sid
       case FinishSnapshot(sid, _, _, session, evidence) => session.sessionId == sid && evidence == d.evidence
       case FinishAbandonment(sid, _, _, session, evidence, snapshot) =>
         session.sessionId == sid && evidence == d.evidence && snapshot == d.snapshot
       case Evaluates(sid, _, _, session, evidence, snapshot) =>
         session.sessionId == sid && evidence == d.evidence && snapshot == d.snapshot &&
         sid !in d.files.abandoned && !Completed(d.evidence, sid)
       case WritesEvidence(sid, _, _, evidence, snapshot, produced) =>
         evidence == d.evidence && snapshot == d.snapshot && sid !in d.files.abandoned &&
         !Completed(d.evidence, sid) && produced.session == Some(sid) && produced.id !in d.evidence.instances
       case WritesSnapshot(sid, _, _, evidence, snapshot, instance) =>
         evidence == d.evidence && snapshot == d.snapshot && instance !in d.snapshot.mentions &&
         instance in d.evidence.instances && d.evidence.instances[instance].session == Some(sid)
       case FinishReturns(sid, _, _, instance) =>
         instance in d.evidence.instances && d.evidence.instances[instance].session == Some(sid) &&
         instance in d.snapshot.mentions
       case _ => true
  }

  ghost predicate AbandonKnows(d: Disk, a: AbandonPoint)
  {
    && (!a.FindsClaim? ==> a.incident == d.evidence.incident && a.sid in d.files.bindings)
    && match a
       case AbandonSnapshot(sid, _, _, evidence) => !Completed(evidence, sid) ==> !Completed(d.evidence, sid)
       case AbandonMarker(sid, _, _) => !Completed(d.evidence, sid)
       case WritesAbandonment(sid, _, _) => !Completed(d.evidence, sid) && sid !in d.files.abandoned
       case AbandonReturns(sid, _, _, _) => sid in d.files.abandoned
       case _ => true
  }

  ghost predicate RecordKnows(d: Disk, j: RecordPoint)
  {
    match j
    case RecordSnapshot(kind, sid, _, _) => Backed(d, kind, sid)
    case AppendsEvent(entry) => Backed(d, entry.kind, entry.session) && Journal.Decide(d.journal, entry).New?
    case _ => Backed(d, j.entry.kind, j.entry.session)
  }

  ghost predicate Knows(d: Disk, used: set<string>, proc: Proc)
  {
    match proc
    case Idle => true
    case InBegin(b) => BeginKnows(d, used, b)
    case InFinish(f) => FinishKnows(d, f)
    case InAbandon(a) => AbandonKnows(d, a)
    case InRecover(r) => true
    case InRecord(j) => RecordKnows(d, j)
  }

  ghost predicate Invariant(w: World)
  {
    && ClaimsAgree(w)
    && OwnersDiffer(w)
    && FilesOk(w.disk, w.used)
    && OutcomesOk(w.disk, w.used)
    && JournalOk(w.disk)
    && (forall p :: Knows(w.disk, w.used, w.At(p)))
  }

  lemma InitialInvariant(w: World)
    requires Initial(w)
    ensures Invariant(w)
  {
  }

  // ----- what one step of a process may change

  /** Files, evidence and journal only grow; nothing written is rewritten or removed. */
  ghost predicate Grows(d: Disk, used: set<string>, d': Disk, used': set<string>)
  {
    && used <= used'
    && d'.evidence.incident == d.evidence.incident
    && (forall x :: x in d.files.sessions ==> x in d'.files.sessions && d'.files.sessions[x] == d.files.sessions[x])
    && (forall x :: x in d.files.bindings ==> x in d'.files.bindings && d'.files.bindings[x] == d.files.bindings[x])
    && (forall x :: x in d.files.abandoned ==> x in d'.files.abandoned && d'.files.abandoned[x] == d.files.abandoned[x])
    && (forall i :: i in d.evidence.instances ==>
          i in d'.evidence.instances && d'.evidence.instances[i] == d.evidence.instances[i])
    && (forall i :: i in d.snapshot.mentions ==> i in d'.snapshot.mentions)
    && d.journal <= d'.journal
  }

  /** Each kind of change needs the claim, or the ownership, that entitles to it. */
  ghost predicate Entitled(d: Disk, used: set<string>, d': Disk, used': set<string>, proc: Proc)
  {
    var inc := d.evidence.incident;
    && (d'.evidence != d.evidence || d'.snapshot != d.snapshot ==> IncidentMutation(inc) in Held(proc))
    && (forall x :: Completed(d'.evidence, x) && !Completed(d.evidence, x) ==>
        SessionClaim(inc, x) in Held(proc) && x in d.files.bindings)
    && (forall x :: x in d'.files.abandoned && x !in d.files.abandoned ==>
        SessionClaim(inc, x) in Held(proc) && x in d.files.bindings)
    && (forall x :: x in d'.files.sessions && x !in d.files.sessions ==> Owned(proc) == Some(x))
    && (forall x :: x in d'.files.bindings && x !in d.files.bindings ==> Owned(proc) == Some(x))
    && (d'.journal != d.journal ==> WorkflowJournal in Held(proc))
  }

  /** The claim a process is about to try. */
  function Wanted(proc: Proc): (r: Option<Claim>)
  {
    match proc
    case InBegin(TakesClaim(t)) => Some(TargetScope(t.incident, t.target, t.scope))
    case InFinish(TakesIncident(_, incident)) => Some(IncidentMutation(incident))
    case InFinish(TakesSession(sid, incident)) => Some(SessionClaim(incident, sid))
    case InAbandon(TakesAbandonClaim(sid, incident)) => Some(SessionClaim(incident, sid))
    case InRecover(TakesRecovery(sid, _)) => Some(WorkflowRecovery(sid))
    case InRecord(TakesJournal(_)) => Some(WorkflowJournal)
    case _ => None
  }

  /** Only p moves, and the lock files follow what p holds. */
  ghost predicate Lawful(w: World, p: Pid, w': World)
  {
    && w'.maxAge == w.maxAge
    && (forall q :: q != p ==> w'.At(q) == w.At(q))
    && ( || (w'.claims == w.claims && Held(w'.At(p)) == Held(w.At(p)))
         || (w'.claims == Drop(w.claims, p) && Held(w'.At(p)) == {})
         || (Wanted(w.At(p)).Some? && Wanted(w.At(p)).value !in w.claims &&
             w'.claims == w.claims[Wanted(w.At(p)).value := p] &&
             Held(w'.At(p)) == Held(w.At(p)) + {Wanted(w.At(p)).value}))
  }

  /** p's generated id is the one it had, or a new one. */
  ghost predicate OwnsLawfully(w: World, p: Pid, w': World)
  {
    var own := Owned(w'.At(p));
    own.None? || own == Owned(w.At(p)) || (own.value !in w.used && own.value in w'.used)
  }

  lemma KeepsClaims(w: World, p: Pid, w': World)
    requires ClaimsAgree(w) && Lawful(w, p, w')
    ensures ClaimsAgree(w')
  {
    hide Held;
    hide Wanted;
    if w'.claims == Drop(w.claims, p) && Held(w'.At(p)) == {} {
      forall q, c | c in Held(w'.At(q)) ensures c in w'.claims && w'.claims[c] == q {
        assert q != p && c in Held(w.At(q));
      }
    }
  }

  lemma KeepsOwners(w: World, p: Pid, w': World)
    requires OwnersDiffer(w) && Lawful(w, p, w') && OwnsLawfully(w, p, w')
    requires forall q :: Owned(w.At(q)).Some? ==> Owned(w.At(q)).value in w.used
    ensures OwnersDiffer(w')
  {
    hide Owned;
    hide Held;
    hide Wanted;
  }
}
