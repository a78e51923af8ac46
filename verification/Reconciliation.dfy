/** scripts/probe_workflow_reconciliation.py: finding partial workflows and discarding them by a marker. */
module Reconciliation {
  import opened Prelude
  import opened Keys
  import opened SessionFiles

  datatype Issue = Issue(sessionId: string, incident: Option<string>, kind: IssueKind, fingerprint: Fingerprint)

  /** The surviving file of a session that has exactly one of the two. */
  function OrphanOf(files: Files, sid: string): (r: Option<Orphan>)
    ensures r.Some? <==> (sid in files.sessions) != (sid in files.bindings)
  {
    if sid in files.sessions && sid !in files.bindings then Some(LoneSession(files.sessions[sid]))
    else if sid in files.bindings && sid !in files.sessions then Some(LoneBinding(files.bindings[sid]))
    else None
  }

  function IssueFor(sid: string, orphan: Orphan): Issue
  {
    Issue(sid, orphan.Incident(), orphan.Kind(), Fingerprint(sid, orphan))
  }

  predicate Matches(marker: File<MarkerDoc>, issue: Issue)
  {
    && marker.Good?
    && marker.doc.sessionId == issue.sessionId
    && marker.doc.kind == issue.kind
    && marker.doc.fingerprint == issue.fingerprint
    && marker.doc.incident == issue.incident
  }

  predicate Resolved(files: Files, issue: Issue)
  {
    issue.sessionId in files.reconciled && Matches(files.reconciled[issue.sessionId], issue)
  }

  /** An incident filter keeps the issues of that incident and those whose file names none. */
  predicate Relevant(issue: Issue, incident: Option<string>)
  {
    incident.None? || issue.incident.None? || issue.incident == incident
  }

  /** What a scan reports for one session id. */
  function Unresolved(files: Files, incident: Option<string>, sid: string): (r: Option<Issue>)
  {
    match OrphanOf(files, sid)
    case None => None
    case Some(orphan) =>
      var issue := IssueFor(sid, orphan);
      if Relevant(issue, incident) && !Resolved(files, issue) then Some(issue) else None
  }

  /** issues are exactly the unresolved ones, in session id order. */
  ghost predicate Report(files: Files, incident: Option<string>, issues: seq<Issue>)
  {
    && (forall i :: 0 <= i < |issues| ==> Unresolved(files, incident, issues[i].sessionId) == Some(issues[i]))
    && (forall i, j :: 0 <= i < j < |issues| ==> Less(Text(issues[i].sessionId), Text(issues[j].sessionId)))
    && (forall sid :: Unresolved(files, incident, sid).Some? ==> Unresolved(files, incident, sid).value in issues)
  }

  /** The body of the scan's loop: what, if anything, is reported for one session id. */
  method Inspect(files: Files, incident: Option<string>, sid: string) returns (r: Option<Issue>)
    requires sid in files.sessions.Keys + files.bindings.Keys
    ensures r == Unresolved(files, incident, sid)
  {
    if sid in files.sessions && sid in files.bindings { return None; }
    var orphan := if sid in files.sessions then LoneSession(files.sessions[sid]) else LoneBinding(files.bindings[sid]);
    var issue := IssueFor(sid, orphan);
    if !Relevant(issue, incident) { return None; }
    if sid in files.reconciled && Matches(files.reconciled[sid], issue) { return None; }
    return Some(issue);
  }

  lemma ReportNames(files: Files, incident: Option<string>, sid: string)
    requires Unresolved(files, incident, sid).Some?
    ensures Unresolved(files, incident, sid).value.sessionId == sid
    ensures sid in files.sessions.Keys + files.bindings.Keys
  {
  }

  /** `scan_partial_probe_workflows`. */
  method Scan(files: Files, incident: Option<string>) returns (issues: seq<Issue>)
    ensures Report(files, incident, issues)
  {
    hide Less;
    hide TextLess;
    hide Leq;
    hide Unresolved;
    var sids := SortedElements(files.sessions.Keys + files.bindings.Keys, TextKey);
    StrictNames(sids);
    issues := [];
    for k := 0 to |sids|
      invariant forall i :: 0 <= i < |issues| ==> Unresolved(files, incident, issues[i].sessionId) == Some(issues[i])
      invariant forall i, j :: 0 <= i < j < |issues| ==> Less(Text(issues[i].sessionId), Text(issues[j].sessionId))
      invariant forall i, j :: 0 <= i < |issues| && k <= j < |sids| ==> Less(Text(issues[i].sessionId), Text(sids[j]))
      invariant forall j :: 0 <= j < k && Unresolved(files, incident, sids[j]).Some? ==>
                  Unresolved(files, incident, sids[j]).value in issues
    {
      assert sids[k] in sids;
      var found := Inspect(files, incident, sids[k]);
      if found.Some? {
        ReportNames(files, incident, sids[k]);
        issues := issues + [found.value];
      }
    }
    forall sid | Unresolved(files, incident, sid).Some? ensures Unresolved(files, incident, sid).value in issues {
      ReportNames(files, incident, sid);
      assert sid in sids;
      var j :| 0 <= j < |sids| && sids[j] == sid;
    }
  }

  lemma ReportedUnresolved(files: Files, incident: Option<string>, issues: seq<Issue>, sid: string)
    requires Report(files, incident, issues)
    ensures (exists i :: 0 <= i < |issues| && issues[i].sessionId == sid) <==> Unresolved(files, incident, sid).Some?
  {
    if Unresolved(files, incident, sid).Some? {
      var issue := Unresolved(files, incident, sid).value;
      assert issue in issues;
      var i :| 0 <= i < |issues| && issues[i] == issue;
      assert issues[i].sessionId == sid;
    }
  }

  /** The incident that a session's or a binding's file names; an empty name counts as none. */
  ghost predicate Names(files: Files, sid: string, incident: Option<string>)
  {
    var raw :=
      if sid in files.sessions then RawIncident(files.sessions[sid], (d: SessionDoc) => d.incident)
      else if sid in files.bindings then RawIncident(files.bindings[sid], (d: BindingDoc) => d.incident)
      else None;
    if raw == Some("") then incident.None? else incident == raw
  }

  ghost function RawIncident<T>(f: File<T>, named: T -> string): Option<string>
  {
    if f.Good? then Some(named(f.doc)) else f.incident
  }

  /**
    A scan reports exactly the sessions that have one of the two files, whose file names the
    incident asked for or none, and that no marker discards: one of that session, incident,
    kind of file and content.
   */
  lemma ReportedIff(files: Files, incident: Option<string>, issues: seq<Issue>, sid: string, named: Option<string>)
    requires Report(files, incident, issues) && Names(files, sid, named)
    ensures (exists i :: 0 <= i < |issues| && issues[i].sessionId == sid) <==>
            && (sid in files.sessions) != (sid in files.bindings)
            && (incident.None? || named.None? || named == incident)
            && !Discards(files, sid, named)
  {
    ReportedUnresolved(files, incident, issues, sid);
    if (sid in files.sessions) != (sid in files.bindings) {
      var orphan :=
        if sid in files.sessions then LoneSession(files.sessions[sid]) else LoneBinding(files.bindings[sid]);
      assert OrphanOf(files, sid) == Some(orphan) && orphan.Incident() == named;
      assert Discards(files, sid, named) <==> Resolved(files, IssueFor(sid, orphan));
    }
  }

  /** The marker of the session is about its one file, as it is. */
  ghost predicate Discards(files: Files, sid: string, named: Option<string>)
  {
    && sid in files.reconciled && files.reconciled[sid].Good?
    && var m := files.reconciled[sid].doc;
       && m.sessionId == sid && m.incident == named
       && (if sid in files.sessions
           then m.kind == OrphanSession && m.fingerprint == Fingerprint(sid, LoneSession(files.sessions[sid]))
           else sid in files.bindings && m.kind == OrphanBinding &&
                m.fingerprint == Fingerprint(sid, LoneBinding(files.bindings[sid])))
  }

  /** A reported issue says which of the two files there is, what it holds and which incident it names. */
  lemma IssueDescribes(files: Files, incident: Option<string>, issues: seq<Issue>, i: nat)
    requires Report(files, incident, issues) && i < |issues|
    ensures var (x, sid) := (issues[i], issues[i].sessionId);
            && (x.kind == OrphanSession <==> sid in files.sessions)
            && (x.kind == OrphanBinding <==> sid in files.bindings)
            && x.fingerprint == Fingerprint(sid, if sid in files.sessions then LoneSession(files.sessions[sid])
                                                 else LoneBinding(files.bindings[sid]))
            && Names(files, sid, x.incident)
  {
    assert Unresolved(files, incident, issues[i].sessionId) == Some(issues[i]);
  }

  function MarkerFor(issue: Issue, at: int): File<MarkerDoc>
  {
    Good(MarkerDoc(issue.sessionId, issue.incident, issue.kind, issue.fingerprint, at))
  }

  /** The directory after a reconciliation request. */
  function Reconciled(files: Files, sid: string, at: int): Files
  {
    match Unresolved(files, None, sid)
    case None => files
    case Some(issue) => files.(reconciled := files.reconciled[sid := MarkerFor(issue, at)])
  }

  class SessionDirectory {
    var files: Files

    constructor (files: Files)
      ensures this.files == files
    {
      this.files := files;
    }

    /** `reconcile_partial_probe_workflow`; the result says whether a marker was there already. */
    method Reconcile(sid: string, at: int) returns (r: Result<(MarkerDoc, bool)>)
      modifies this
      ensures files == Reconciled(old(files), sid, at)
      ensures r.Raised? <==> Unresolved(old(files), None, sid).None? &&
                             !(sid in old(files).reconciled && old(files).reconciled[sid].Good?)
      ensures r.Ok? ==> sid in files.reconciled && files.reconciled[sid] == Good(r.value.0)
      ensures r.Ok? ==> (r.value.1 <==> Unresolved(old(files), None, sid).None?)
    {
      var issues := Scan(files, None);
      var i := 0;
      while i < |issues| && issues[i].sessionId != sid
        invariant 0 <= i <= |issues|
        invariant forall j :: 0 <= j < i ==> issues[j].sessionId != sid
      {
        i := i + 1;
      }
      if i == |issues| {
        if Unresolved(files, None, sid).Some? { ReportNames(files, None, sid); }
        if sid in files.reconciled && files.reconciled[sid].Good? {
          return Ok((files.reconciled[sid].doc, true));
        }
        return Raised;
      }
      var marker := MarkerFor(issues[i], at);
      files := files.(reconciled := files.reconciled[sid := marker]);
      return Ok((marker.doc, false));
    }
  }

  // ----- laws

  /** Reconciling removes exactly that session's issue, under every filter, and touches no other file. */
  lemma ReconcileRemovesOne(files: Files, sid: string, at: int, incident: Option<string>, other: string)
    ensures var after := Reconciled(files, sid, at);
            && Unresolved(after, incident, sid).None?
            && (other != sid ==> Unresolved(after, incident, other) == Unresolved(files, incident, other))
            && after == files.(reconciled := after.reconciled)
            && (forall x :: x in files.reconciled && x != sid ==>
                x in after.reconciled && after.reconciled[x] == files.reconciled[x])
            && after.reconciled.Keys <= files.reconciled.Keys + {sid}
  {
  }

  lemma ReconcileTwice(files: Files, sid: string, at: int, later: int)
    ensures Reconciled(Reconciled(files, sid, at), sid, later) == Reconciled(files, sid, at)
  {
  }

  /**
    The issue comes back as soon as what is left of the session is no longer what was
    discarded: other content, or the other kind of orphan; and only then.
   */
  lemma IssueReappears(files: Files, later: Files, sid: string, at: int)
    requires Unresolved(files, None, sid).Some?
    requires later.reconciled == Reconciled(files, sid, at).reconciled && OrphanOf(later, sid).Some?
    ensures Unresolved(later, None, sid).Some? <==> OrphanOf(later, sid) != OrphanOf(files, sid)
  {
  }
}
