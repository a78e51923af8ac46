/**
  The persisted probe-session protocol: scripts/mcp_probe_tools.py and
  scripts/mcp_probe_recovery_tool.py as a state machine.
  Any number of processes run begin, finish, abandon and reconcile over one
  session directory, one evidence file and one snapshot file.  A step is one
  file read, one file write, or taking or releasing a claim; between any two
  steps of a process the others may run, and a process may crash.
 */
module ProbeProtocol {
  import opened Prelude
  import opened SessionFiles
  import Reconciliation
  import Journal

  type Pid = nat

  /** One runtime evidence instance; `session` is its session_id label, `observed` its state. */
  datatype Instance = Instance(id: string, session: Option<string>, scope: Scope, observation: string, observed: bool,
                               observedAt: int, expiresAt: Option<int>, content: string)

  datatype Evidence = Evidence(incident: string, instances: map<string, Instance>)

  /** The head of one partition's probe ranking for one target. */
  datatype Recommendation = Recommendation(scope: Scope, target: string, probe: string, readOnly: bool)

  /** `mentions` are the active, stale and future instance ids of all partitions. */
  datatype Snapshot = Snapshot(incident: string, revision: nat, mentions: set<string>, recommended: seq<Recommendation>)

  datatype Report =
    | Began(target: string, scope: Scope, startedAt: int, revision: nat)
    | Finished(target: string, scope: Scope, instance: string)
    | GaveUp(target: string, scope: Scope, abandonedAt: int)
    | Discarded(incident: Option<string>, kind: IssueKind, fingerprint: Fingerprint, reconciledAt: int)

  type Entry = Journal.Entry<Report>

  datatype Disk = Disk(files: Files, evidence: Evidence, snapshot: Snapshot, journal: seq<Entry>)

  /** The identity a lock file stands for; distinct identities have distinct lock files. */
  datatype Claim =
    | TargetScope(incident: string, target: string, scope: Scope)
    | SessionClaim(incident: string, session: string)
    | IncidentMutation(incident: string)
    | WorkflowJournal
    | WorkflowRecovery(session: string)

  // ----- where a process can be, and what it has read so far

  /** A begin that has chosen the claim to take: `scope` is the scope it claims. */
  datatype Task = Task(incident: string, target: string, scope: Scope)

  /** A begin that has re-read the snapshot under its claim. */
  datatype Plan = Plan(task: Task, incident: string, scope: Scope, probe: string, readOnly: bool, revision: nat)

  datatype BeginPoint =
    | LoadsSnapshot(target: string, requested: Scope)
    | LoadsEvidence(target: string, requested: Scope, snapshot: Snapshot)
    | TakesClaim(task: Task)
    | ReloadsSnapshot(task: Task)
    | ReloadsEvidence(task: Task, snapshot: Snapshot)
    | LoadsCompleted(plan: Plan)
    | ListsFiles(plan: Plan, completed: set<string>)
    | ScansOrphans(plan: Plan, completed: set<string>, orphans: map<string, IssueKind>)
    | ScansMarker(plan: Plan, completed: set<string>, orphans: map<string, IssueKind>, issue: Reconciliation.Issue)
    | ListsBindings(plan: Plan, completed: set<string>)
    | LoadsBinding(plan: Plan, completed: set<string>, todo: set<string>, clash: bool)
    | LoadsSession(plan: Plan, completed: set<string>, todo: set<string>, clash: bool, sid: string, binding: BindingDoc)
    | LoadsAbandonment(plan: Plan, completed: set<string>, todo: set<string>, clash: bool, sid: string,
                       binding: BindingDoc)
    | CapturesBaseline(plan: Plan)
    | ChecksUnused(plan: Plan, sid: string, startedAt: int)
    | WritesSession(plan: Plan, sid: string, startedAt: int)
    | WritesBinding(plan: Plan, sid: string, startedAt: int)
    | BeginReturns(plan: Plan, sid: string, startedAt: int)

  datatype FinishPoint =
    | FindsIncident(sid: string)
    | TakesIncident(sid: string, incident: string)
    | TakesSession(sid: string, incident: string)
    | FinishBinding(sid: string, incident: string)
    | FinishSession(sid: string, incident: string, binding: BindingDoc)
    | FinishEvidence(sid: string, incident: string, binding: BindingDoc, session: SessionDoc)
    | FinishSnapshot(sid: string, incident: string, binding: BindingDoc, session: SessionDoc, evidence: Evidence)
    | FinishAbandonment(sid: string, incident: string, binding: BindingDoc, session: SessionDoc, evidence: Evidence,
                        snapshot: Snapshot)
    | Evaluates(sid: string, incident: string, binding: BindingDoc, session: SessionDoc, evidence: Evidence,
                snapshot: Snapshot)
    | WritesEvidence(sid: string, incident: string, binding: BindingDoc, evidence: Evidence, snapshot: Snapshot,
                     produced: Instance)
    | WritesSnapshot(sid: string, incident: string, binding: BindingDoc, evidence: Evidence, snapshot: Snapshot,
                     instance: string)
    | FinishReturns(sid: string, incident: string, binding: BindingDoc, instance: string)

  datatype AbandonPoint =
    | FindsClaim(sid: string)
    | TakesAbandonClaim(sid: string, incident: string)
    | AbandonBinding(sid: string, incident: string)
    | AbandonSession(sid: string, incident: string, binding: BindingDoc)
    | AbandonEvidence(sid: string, incident: string, binding: BindingDoc)
    | AbandonSnapshot(sid: string, incident: string, binding: BindingDoc, evidence: Evidence)
    | AbandonMarker(sid: string, incident: string, binding: BindingDoc)
    | WritesAbandonment(sid: string, incident: string, binding: BindingDoc)
    | AbandonReturns(sid: string, incident: string, binding: BindingDoc, abandonedAt: int)

  datatype RecoverPoint =
    | TakesRecovery(sid: string, fingerprint: Fingerprint)
    | RecoverSnapshot(sid: string, fingerprint: Fingerprint)
    | ScansCurrent(sid: string, fingerprint: Fingerprint, incident: string)
    | ScansAll(sid: string, fingerprint: Fingerprint, incident: string)
    | Reconciles(sid: string, fingerprint: Fingerprint, incident: string)
    | WritesMarker(sid: string, fingerprint: Fingerprint, incident: string, issue: Reconciliation.Issue)
    | RecoverReturns(sid: string, fingerprint: Fingerprint, incident: string, marker: MarkerDoc)

  datatype RecordPoint =
    | RecordSnapshot(kind: Journal.EventType, sid: string, incident: Option<string>, report: Report)
    | RecordEvidence(entry: Entry)
    | TakesJournal(entry: Entry)
    | ReadsJournal(entry: Entry)
    | AppendsEvent(entry: Entry)
    | RecordReturns(entry: Entry)

  datatype Proc = Idle | InBegin(b: BeginPoint) | InFinish(f: FinishPoint) | InAbandon(a: AbandonPoint)
                | InRecover(r: RecoverPoint) | InRecord(j: RecordPoint)

  /** `used` are the session ids ever generated or mentioned; a fresh id is one outside it. */
  datatype World = World(disk: Disk, claims: map<Claim, Pid>, procs: map<Pid, Proc>, used: set<string>, maxAge: nat) {
    function At(p: Pid): Proc { if p in procs then procs[p] else Idle }
  }

  datatype Call =
    | BeginCall(target: string, scope: Scope)
    | FinishCall(sid: string)
    | AbandonCall(sid: string)
    | ReconcileCall(sid: string, fingerprint: Fingerprint)

  /**
    What the outside decides about one step: the clock, the next file a loop takes, whether
    the probe executor succeeds and what it produces, and the recommendations a rebuilt snapshot carries.
   */
  datatype Outside = Outside(now: int, pick: string, succeeds: bool, newId: string, instance: Instance,
                             recommended: seq<Recommendation>)

  datatype Move = Start(call: Call) | Continue(outside: Outside) | Crash

  // ----- elementary effects

  function Goto(w: World, p: Pid, q: Proc): World { w.(procs := w.procs[p := q]) }

  function Drop(claims: map<Claim, Pid>, p: Pid): (r: map<Claim, Pid>)
    ensures forall c :: c in r <==> c in claims && claims[c] != p
    ensures forall c :: c in r ==> r[c] == claims[c]
  {
    map c | c in claims && claims[c] != p :: claims[c]
  }

  /** Leaving the claimed section, by return, exception or crash, unlocks everything the process holds. */
  function Leave(w: World, p: Pid, q: Proc): World { w.(claims := Drop(w.claims, p), procs := w.procs[p := q]) }

  function Fail(w: World, p: Pid): World { Leave(w, p, Idle) }

  /** A non-blocking claim: taken if free, otherwise the operation fails and releases what it had. */
  function Take(w: World, p: Pid, c: Claim, q: Proc): World
  {
    if c in w.claims then Fail(w, p) else w.(claims := w.claims[c := p], procs := w.procs[p := q])
  }

  function Write(w: World, p: Pid, disk: Disk, q: Proc): World { w.(disk := disk, procs := w.procs[p := q]) }

  function WriteFiles(w: World, p: Pid, files: Files, q: Proc): World { Write(w, p, w.disk.(files := files), q) }

  // ----- reading documents

  /** The recommendation is for the target, in the requested scope; a null request takes any scope. */
  predicate Fits(r: Recommendation, target: string, requested: Scope)
  {
    r.target == target && (requested.None? || r.scope == requested)
  }

  ghost predicate NoneFits(rs: seq<Recommendation>, target: string, requested: Scope)
  {
    forall j :: 0 <= j < |rs| ==> !Fits(rs[j], target, requested)
  }

  ghost predicate OnlyFits(rs: seq<Recommendation>, target: string, requested: Scope, i: nat)
  {
    i < |rs| && Fits(rs[i], target, requested) && forall j :: 0 <= j < |rs| && Fits(rs[j], target, requested) ==> j == i
  }

  /** Exactly one recommendation fits. */
  ghost predicate OneFits(rs: seq<Recommendation>, target: string, requested: Scope)
  {
    exists i: nat :: OnlyFits(rs, target, requested, i)
  }

  /** `_find_recommendation`: the one recommendation that fits, if exactly one does. */
  function FindRecommendation(s: Snapshot, target: string, requested: Scope): (r: Option<Recommendation>)
    ensures r.Some? <==> OneFits(s.recommended, target, requested)
    ensures r.Some? ==> r.value in s.recommended && Fits(r.value, target, requested)
  {
    var found := Matching(s.recommended, target, requested);
    MatchingCounts(s.recommended, target, requested);
    if |found| == 1 then
      assert found[0] in found;
      Some(found[0])
    else None
  }

  function Matching(rs: seq<Recommendation>, target: string, requested: Scope): (r: seq<Recommendation>)
    ensures forall x :: x in r ==> x in rs && Fits(x, target, requested)
  {
    if rs == [] then []
    else (if Fits(rs[0], target, requested) then [rs[0]] else []) + Matching(rs[1..], target, requested)
  }

  lemma {:induction false} MatchingCounts(rs: seq<Recommendation>, target: string, requested: Scope)
    ensures |Matching(rs, target, requested)| == 0 <==> NoneFits(rs, target, requested)
    ensures |Matching(rs, target, requested)| == 1 <==> OneFits(rs, target, requested)
  {
    hide OneFits;
    hide NoneFits;
    if rs == [] {
      NothingFits(target, requested);
    } else {
      MatchingCounts(rs[1..], target, requested);
      FitsFirst(rs, target, requested);
    }
  }

  lemma {:induction false} NothingFits(target: string, requested: Scope)
    ensures NoneFits([], target, requested) && !OneFits([], target, requested)
  {
  }

  lemma {:induction false} FitsFirst(rs: seq<Recommendation>, target: string, requested: Scope)
    requires rs != []
    ensures var rest := rs[1..];
            && (NoneFits(rs, target, requested) <==>
                !Fits(rs[0], target, requested) && NoneFits(rest, target, requested))
            && (OneFits(rs, target, requested) <==>
                if Fits(rs[0], target, requested) then NoneFits(rest, target, requested)
                else OneFits(rest, target, requested))
  {
    hide Fits;
    var rest := rs[1..];
    assert forall j :: 0 < j < |rs| ==> rs[j] == rest[j - 1];
    if Fits(rs[0], target, requested) {
      if NoneFits(rest, target, requested) { assert OnlyFits(rs, target, requested, 0); }
    } else {
      forall i: nat ensures OnlyFits(rs, target, requested, i + 1) <==> OnlyFits(rest, target, requested, i) {
        assert i < |rest| ==> rest[i] == rs[i + 1];
        assert forall j :: 0 <= j < |rest| ==> rest[j] == rs[j + 1];
      }
      if i: nat :| OnlyFits(rs, target, requested, i) { assert OnlyFits(rest, target, requested, i - 1); }
      if i: nat :| OnlyFits(rest, target, requested, i) { assert OnlyFits(rs, target, requested, i + 1); }
    }
  }

  ghost predicate Completed(e: Evidence, sid: string)
  {
    exists i :: i in e.instances && e.instances[i].session == Some(sid)
  }

  ghost predicate Ambiguous(e: Evidence, sid: string)
  {
    exists i, j :: i in e.instances && j in e.instances && i != j &&
                   e.instances[i].session == Some(sid) && e.instances[j].session == Some(sid)
  }

  /** `_session_evidence_instance`, for a session with exactly one. */
  ghost function InstanceOf(e: Evidence, sid: string): (r: string)
    requires Completed(e, sid)
    ensures r in e.instances && e.instances[r].session == Some(sid)
  {
    var i :| i in e.instances && e.instances[i].session == Some(sid); i
  }

  ghost function CompletedIn(e: Evidence): (r: set<string>)
    ensures forall x :: x in r <==> Completed(e, x)
  {
    set i | i in e.instances && e.instances[i].session.Some? :: e.instances[i].session.value
  }

  /** The snapshot rebuilt from evidence mentions every instance. */
  function Rebuilt(s: Snapshot, e: Evidence, recommended: seq<Recommendation>): Snapshot
  {
    Snapshot(e.incident, s.revision + 1, e.instances.Keys, recommended)
  }

  // ----- begin

  ghost function AdvanceBegin(w: World, p: Pid, b: BeginPoint, o: Outside): World
  {
    var d := w.disk;
    match b
    case LoadsSnapshot(target, requested) => Goto(w, p, InBegin(LoadsEvidence(target, requested, d.snapshot)))
    case LoadsEvidence(target, requested, snapshot) =>
      var found := FindRecommendation(snapshot, target, requested);
      if snapshot.incident != d.evidence.incident || found.None? then Fail(w, p)
      else Goto(w, p, InBegin(TakesClaim(Task(snapshot.incident, target, found.value.scope))))
    case TakesClaim(task) =>
      Take(w, p, TargetScope(task.incident, task.target, task.scope), InBegin(ReloadsSnapshot(task)))
    case ReloadsSnapshot(task) => Goto(w, p, InBegin(ReloadsEvidence(task, d.snapshot)))
    case ReloadsEvidence(task, snapshot) =>
      var found := FindRecommendation(snapshot, task.target, task.scope);
      if snapshot.incident != d.evidence.incident || found.None? then Fail(w, p)
      else
        var r := found.value;
        Goto(w, p, InBegin(LoadsCompleted(Plan(task, snapshot.incident, r.scope, r.probe, r.readOnly,
                                               snapshot.revision))))
    case LoadsCompleted(plan) =>
      Goto(w, p, InBegin(ListsFiles(plan, CompletedIn(d.evidence))))
    case ListsFiles(plan, completed) =>
      Goto(w, p, InBegin(ScansOrphans(plan, completed, OrphansIn(d.files))))
    case ScansOrphans(plan, completed, orphans) =>
      if orphans == map[] then Goto(w, p, InBegin(ListsBindings(plan, completed)))
      else if o.pick !in orphans then w
      else (match OrphanFile(d.files, o.pick, orphans[o.pick])
            case None => Fail(w, p)
            case Some(orphan) =>
              Goto(w, p, InBegin(ScansMarker(plan, completed, orphans, Reconciliation.IssueFor(o.pick, orphan)))))
    case ScansMarker(plan, completed, orphans, issue) =>
      if Reconciliation.Relevant(issue, Some(plan.incident)) && !Reconciliation.Resolved(d.files, issue) then Fail(w, p)
      else Goto(w, p, InBegin(ScansOrphans(plan, completed, orphans - {issue.sessionId})))
    case _ => AdvanceBegin'(w, p, b, o)
  }

  ghost function AdvanceBegin'(w: World, p: Pid, b: BeginPoint, o: Outside): World
  {
    var d := w.disk;
    match b
    case ListsBindings(plan, completed) =>
      Goto(w, p, InBegin(LoadsBinding(plan, completed, d.files.bindings.Keys, false)))
    case LoadsBinding(plan, completed, todo, clash) =>
      if todo == {} then (if clash then Fail(w, p) else Goto(w, p, InBegin(CapturesBaseline(plan))))
      else if o.pick !in todo then w
      else if o.pick !in d.files.bindings || d.files.bindings[o.pick].Broken? ||
              d.files.bindings[o.pick].doc.sessionId != o.pick then Fail(w, p)
      else
        var binding := d.files.bindings[o.pick].doc;
        if binding.incident != plan.incident then
          Goto(w, p, InBegin(LoadsBinding(plan, completed, todo - {o.pick}, clash)))
        else Goto(w, p, InBegin(LoadsSession(plan, completed, todo, clash, o.pick, binding)))
    case LoadsSession(plan, completed, todo, clash, sid, binding) =>
      if sid !in d.files.sessions then Goto(w, p, InBegin(LoadsBinding(plan, completed, todo - {sid}, clash)))
      else if d.files.sessions[sid].Broken? || !Paired(sid, d.files.sessions[sid].doc, binding) then Fail(w, p)
      else if sid in completed then Goto(w, p, InBegin(LoadsBinding(plan, completed, todo - {sid}, clash)))
      else Goto(w, p, InBegin(LoadsAbandonment(plan, completed, todo, clash, sid, binding)))
    case LoadsAbandonment(plan, completed, todo, clash, sid, binding) =>
      if sid in d.files.abandoned then
        if ValidAbandonment(d.files.abandoned[sid], sid, binding.incident)
        then Goto(w, p, InBegin(LoadsBinding(plan, completed, todo - {sid}, clash)))
        else Fail(w, p)
      else
        var matches := binding.target == plan.task.target && binding.scope == plan.scope;
        Goto(w, p, InBegin(LoadsBinding(plan, completed, todo - {sid}, clash || matches)))
    case CapturesBaseline(plan) =>
      if !plan.readOnly || !o.succeeds then Fail(w, p)
      else if o.newId in w.used then w
      else w.(procs := w.procs[p := InBegin(ChecksUnused(plan, o.newId, o.now))], used := w.used + {o.newId})
    case ChecksUnused(plan, sid, startedAt) =>
      if sid in d.files.sessions || sid in d.files.bindings || sid in d.files.abandoned then Fail(w, p)
      else Goto(w, p, InBegin(WritesSession(plan, sid, startedAt)))
    case WritesSession(plan, sid, startedAt) =>
      WriteFiles(w, p, d.files.(sessions := d.files.sessions[sid := Good(Begun(plan, sid, startedAt))]),
                 InBegin(WritesBinding(plan, sid, startedAt)))
    case WritesBinding(plan, sid, startedAt) =>
      WriteFiles(w, p, d.files.(bindings := d.files.bindings[sid := Good(Bound(plan, sid))]),
                 InBegin(BeginReturns(plan, sid, startedAt)))
    case BeginReturns(plan, sid, startedAt) =>
      Leave(w, p, InRecord(RecordSnapshot(Journal.Begin, sid, Some(plan.incident),
                                          Began(plan.task.target, plan.scope, startedAt, plan.revision))))
    case _ => w
  }

  /** The documents a begin writes. */
  function Begun(plan: Plan, sid: string, startedAt: int): SessionDoc
  {
    SessionDoc(sid, plan.incident, plan.probe, plan.probe, plan.scope, startedAt)
  }

  function Bound(plan: Plan, sid: string): BindingDoc
  {
    BindingDoc(sid, plan.incident, plan.task.target, plan.probe, plan.scope, plan.revision, "etag")
  }

  /** The sessions a directory listing shows with one of the two files. */
  ghost function OrphansIn(files: Files): map<string, IssueKind>
  {
    map sid | sid in files.sessions.Keys + files.bindings.Keys && (sid in files.sessions) != (sid in files.bindings)
      :: if sid in files.sessions then OrphanSession else OrphanBinding
  }

  /** The file a listed orphan is judged by. */
  function OrphanFile(files: Files, sid: string, kind: IssueKind): (r: Option<Orphan>)
  {
    if kind == OrphanSession then (if sid in files.sessions then Some(LoneSession(files.sessions[sid])) else None)
    else (if sid in files.bindings then Some(LoneBinding(files.bindings[sid])) else None)
  }

  predicate ValidAbandonment(f: File<AbandonmentDoc>, sid: string, incident: string)
  {
    f.Good? && f.doc.sessionId == sid && f.doc.incident == incident
  }

  predicate LoadsBindingOf(files: Files, sid: string)
  {
    sid in files.bindings && files.bindings[sid].Good? && files.bindings[sid].doc.sessionId == sid
  }

  predicate LoadsSessionOf(files: Files, sid: string)
  {
    sid in files.sessions && files.sessions[sid].Good?
  }

  // ----- finish

  ghost function AdvanceFinish(w: World, p: Pid, f: FinishPoint, o: Outside): World
  {
    var d := w.disk;
    match f
    case FindsIncident(sid) =>
      if !LoadsBindingOf(d.files, sid) then Fail(w, p)
      else Goto(w, p, InFinish(TakesIncident(sid, d.files.bindings[sid].doc.incident)))
    case TakesIncident(sid, incident) => Take(w, p, IncidentMutation(incident), InFinish(TakesSession(sid, incident)))
    case TakesSession(sid, incident) => Take(w, p, SessionClaim(incident, sid), InFinish(FinishBinding(sid, incident)))
    case FinishBinding(sid, incident) =>
      if !LoadsBindingOf(d.files, sid) then Fail(w, p)
      else Goto(w, p, InFinish(FinishSession(sid, incident, d.files.bindings[sid].doc)))
    case FinishSession(sid, incident, binding) =>
      if !LoadsSessionOf(d.files, sid) then Fail(w, p)
      else
        var session := d.files.sessions[sid].doc;
        if session.incident != binding.incident || session.probe != binding.probe || session.scope != binding.scope
        then Fail(w, p)
        else Goto(w, p, InFinish(FinishEvidence(sid, incident, binding, session)))
    case FinishEvidence(sid, incident, binding, session) =>
      Goto(w, p, InFinish(FinishSnapshot(sid, incident, binding, session, d.evidence)))
    case FinishSnapshot(sid, incident, binding, session, evidence) =>
      if d.snapshot.incident != evidence.incident || session.incident != d.snapshot.incident then Fail(w, p)
      else Goto(w, p, InFinish(FinishAbandonment(sid, incident, binding, session, evidence, d.snapshot)))
    case _ => AdvanceFinish'(w, p, f, o)
  }

  ghost function AdvanceFinish'(w: World, p: Pid, f: FinishPoint, o: Outside): World
  {
    var d := w.disk;
    match f
    case FinishAbandonment(sid, incident, binding, session, evidence, snapshot) =>
      if sid in d.files.abandoned || Ambiguous(evidence, sid) then Fail(w, p)
      else if Completed(evidence, sid) then
        var i := InstanceOf(evidence, sid);
        if i in snapshot.mentions then Goto(w, p, InFinish(FinishReturns(sid, incident, binding, i)))
        else Goto(w, p, InFinish(WritesSnapshot(sid, incident, binding, evidence, snapshot, i)))
      else Goto(w, p, InFinish(Evaluates(sid, incident, binding, session, evidence, snapshot)))
    case Evaluates(sid, incident, binding, session, evidence, snapshot) =>
      // expired, clock before the start, or a failing executor; composition refuses an id with other content
      var produced := o.instance.(session := Some(session.sessionId), scope := session.scope, observedAt := o.now);
      if o.now >= session.startedAt + w.maxAge || o.now < session.startedAt || !o.succeeds ||
         (produced.id in evidence.instances && evidence.instances[produced.id] != produced)
      then Fail(w, p)
      else Goto(w, p, InFinish(WritesEvidence(sid, incident, binding, evidence, snapshot, produced)))
    case WritesEvidence(sid, incident, binding, evidence, snapshot, produced) =>
      var composed := evidence.(instances := evidence.instances[produced.id := produced]);
      Write(w, p, d.(evidence := composed),
            InFinish(WritesSnapshot(sid, incident, binding, composed, snapshot, produced.id)))
    case WritesSnapshot(sid, incident, binding, evidence, snapshot, instance) =>
      Write(w, p, d.(snapshot := Rebuilt(snapshot, evidence, o.recommended)),
            InFinish(FinishReturns(sid, incident, binding, instance)))
    case FinishReturns(sid, incident, binding, instance) =>
      Leave(w, p, InRecord(RecordSnapshot(Journal.Finish, sid, Some(binding.incident),
                                          Finished(binding.target, binding.scope, instance))))
    case _ => w
  }

  // ----- abandon

  ghost function AdvanceAbandon(w: World, p: Pid, a: AbandonPoint, o: Outside): World
  {
    var d := w.disk;
    match a
    case FindsClaim(sid) =>
      if !LoadsBindingOf(d.files, sid) then Fail(w, p)
      else Goto(w, p, InAbandon(TakesAbandonClaim(sid, d.files.bindings[sid].doc.incident)))
    case TakesAbandonClaim(sid, incident) =>
      Take(w, p, SessionClaim(incident, sid), InAbandon(AbandonBinding(sid, incident)))
    case AbandonBinding(sid, incident) =>
      if !LoadsBindingOf(d.files, sid) then Fail(w, p)
      else Goto(w, p, InAbandon(AbandonSession(sid, incident, d.files.bindings[sid].doc)))
    case AbandonSession(sid, incident, binding) =>
      if !LoadsSessionOf(d.files, sid) || d.files.sessions[sid].doc.incident != binding.incident then Fail(w, p)
      else Goto(w, p, InAbandon(AbandonEvidence(sid, incident, binding)))
    case AbandonEvidence(sid, incident, binding) =>
      Goto(w, p, InAbandon(AbandonSnapshot(sid, incident, binding, d.evidence)))
    case AbandonSnapshot(sid, incident, binding, evidence) =>
      if d.snapshot.incident != evidence.incident || binding.incident != d.snapshot.incident || Completed(evidence, sid)
      then Fail(w, p)
      else Goto(w, p, InAbandon(AbandonMarker(sid, incident, binding)))
    case AbandonMarker(sid, incident, binding) =>
      if sid in d.files.abandoned then
        if ValidAbandonment(d.files.abandoned[sid], sid, binding.incident)
        then Goto(w, p, InAbandon(AbandonReturns(sid, incident, binding, d.files.abandoned[sid].doc.abandonedAt)))
        else Fail(w, p)
      else Goto(w, p, InAbandon(WritesAbandonment(sid, incident, binding)))
    case WritesAbandonment(sid, incident, binding) =>
      var doc := AbandonmentDoc(sid, binding.incident, o.now);
      WriteFiles(w, p, d.files.(abandoned := d.files.abandoned[sid := Good(doc)]),
                 InAbandon(AbandonReturns(sid, incident, binding, o.now)))
    case AbandonReturns(sid, incident, binding, at) =>
      Leave(w, p, InRecord(RecordSnapshot(Journal.Abandon, sid, Some(binding.incident),
                                          GaveUp(binding.target, binding.scope, at))))
  }

  // ----- reconcile

  /**
    Each scan looks at one session id in one step: sessions and bindings are never rewritten
    or removed, and the recovery claim keeps other reconciliations of the session out.
   */
  ghost function AdvanceRecover(w: World, p: Pid, r: RecoverPoint, o: Outside): World
  {
    var d := w.disk;
    match r
    case TakesRecovery(sid, fp) => Take(w, p, WorkflowRecovery(sid), InRecover(RecoverSnapshot(sid, fp)))
    case RecoverSnapshot(sid, fp) => Goto(w, p, InRecover(ScansCurrent(sid, fp, d.snapshot.incident)))
    case ScansCurrent(sid, fp, incident) =>
      (match Reconciliation.Unresolved(d.files, Some(incident), sid)
       case Some(issue) =>
         if issue.fingerprint != fp then Fail(w, p) else Goto(w, p, InRecover(Reconciles(sid, fp, incident)))
       case None => Goto(w, p, InRecover(ScansAll(sid, fp, incident))))
    case ScansAll(sid, fp, incident) =>
      if Reconciliation.Unresolved(d.files, None, sid).Some? then Fail(w, p)
      else Goto(w, p, InRecover(Reconciles(sid, fp, incident)))
    case Reconciles(sid, fp, incident) =>
      (match Reconciliation.Unresolved(d.files, None, sid)
       case Some(issue) => Goto(w, p, InRecover(WritesMarker(sid, fp, incident, issue)))
       case None =>
         if sid in d.files.reconciled && d.files.reconciled[sid].Good?
         then Goto(w, p, InRecover(RecoverReturns(sid, fp, incident, d.files.reconciled[sid].doc)))
         else Fail(w, p))
    case WritesMarker(sid, fp, incident, issue) =>
      var marker := Reconciliation.MarkerFor(issue, o.now);
      WriteFiles(w, p, d.files.(reconciled := d.files.reconciled[sid := marker]),
                 InRecover(RecoverReturns(sid, fp, incident, marker.doc)))
    case RecoverReturns(sid, fp, incident, marker) =>
      if marker.fingerprint != fp || (marker.incident.Some? && marker.incident != Some(incident)) then Fail(w, p)
      else Leave(w, p, InRecord(RecordSnapshot(Journal.Reconcile, sid, marker.incident,
                                               Discarded(marker.incident, marker.kind, marker.fingerprint,
                                                         marker.reconciledAt))))
  }

  // ----- the audit journal, after a committed transition

  ghost function AdvanceRecord(w: World, p: Pid, j: RecordPoint, o: Outside): World
  {
    var d := w.disk;
    match j
    case RecordSnapshot(kind, sid, incident, report) =>
      var owner := if incident.Some? then incident.value else d.snapshot.incident;
      Goto(w, p, InRecord(RecordEvidence(Journal.Entry(kind, owner, sid, report))))
    case RecordEvidence(entry) =>
      if entry.data.Finished? && entry.data.instance !in d.evidence.instances then Fail(w, p)
      else Goto(w, p, InRecord(TakesJournal(entry)))
    case TakesJournal(entry) => Take(w, p, WorkflowJournal, InRecord(ReadsJournal(entry)))
    case ReadsJournal(entry) =>
      (match Journal.Decide(d.journal, entry)
       case New => if entry.incident == "" then Fail(w, p) else Goto(w, p, InRecord(AppendsEvent(entry)))
       case Recorded(_) => Goto(w, p, InRecord(RecordReturns(entry)))
       case Conflict => Fail(w, p))
    case AppendsEvent(entry) => Write(w, p, d.(journal := d.journal + [entry]), InRecord(RecordReturns(entry)))
    case RecordReturns(_) => Fail(w, p)
  }

  // ----- steps and runs

  function First(call: Call): Proc
  {
    match call
    case BeginCall(target, scope) => InBegin(LoadsSnapshot(target, scope))
    case FinishCall(sid) => InFinish(FindsIncident(sid))
    case AbandonCall(sid) => InAbandon(FindsClaim(sid))
    case ReconcileCall(sid, fingerprint) => InRecover(TakesRecovery(sid, fingerprint))
  }

  ghost function Advance(w: World, p: Pid, o: Outside): World
  {
    match w.At(p)
    case Idle => w
    case InBegin(b) => AdvanceBegin(w, p, b, o)
    case InFinish(f) => AdvanceFinish(w, p, f, o)
    case InAbandon(a) => AdvanceAbandon(w, p, a, o)
    case InRecover(r) => AdvanceRecover(w, p, r, o)
    case InRecord(j) => AdvanceRecord(w, p, j, o)
  }

  ghost function Step(w: World, p: Pid, m: Move): World
  {
    match m
    case Start(call) => if w.At(p).Idle? then Goto(w, p, First(call)) else w
    case Continue(o) => Advance(w, p, o)
    case Crash => Fail(w, p)
  }

  datatype Action = Action(pid: Pid, move: Move)

  /** The worlds a schedule passes through, first to last. */
  ghost function Run(w: World, schedule: seq<Action>): (r: seq<World>)
    ensures |r| == |schedule| + 1 && r[0] == w
    decreases |schedule|
  {
    if schedule == [] then [w]
    else [w] + Run(Step(w, schedule[0].pid, schedule[0].move), schedule[1..])
  }

  /** An empty session directory and journal, nobody running, evidence with at most one instance per session. */
  ghost predicate Initial(w: World)
  {
    && w.claims == map[] && w.procs == map[]
    && w.disk.files == Files(map[], map[], map[], map[]) && w.disk.journal == []
    && (forall i :: i in w.disk.evidence.instances ==> w.disk.evidence.instances[i].id == i)
    && (forall sid :: Completed(w.disk.evidence, sid) ==> sid in w.used && !Ambiguous(w.disk.evidence, sid))
    && w.disk.snapshot.mentions <= w.disk.evidence.instances.Keys
  }
}
