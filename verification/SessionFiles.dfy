/**
  The files of one probe session directory, as the readers and writers load
  them: up to four files per session id.
 */
module SessionFiles {
  import opened Prelude

  /** A normalised scope in canonical form; None is JSON null. */
  type Scope = Option<string>

  datatype SessionDoc = SessionDoc(sessionId: string, incident: string, probe: string, executor: string,
                                   scope: Scope, startedAt: int)

  datatype BindingDoc = BindingDoc(sessionId: string, incident: string, target: string, probe: string,
                                   scope: Scope, revision: nat, etag: string)

  /** The session belongs to this session id and agrees with the binding. */
  predicate Paired(sid: string, session: SessionDoc, binding: BindingDoc)
    ensures Paired(sid, session, binding) <==>
            session == SessionDoc(sid, binding.incident, binding.probe, session.executor, binding.scope,
                                  session.startedAt)
  {
    && session.sessionId == sid && session.incident == binding.incident
    && session.probe == binding.probe && session.scope == binding.scope
  }

  datatype AbandonmentDoc = AbandonmentDoc(sessionId: string, incident: string, abandonedAt: int)

  /** A file either loads as the document it should hold or is broken; a broken one may still name an incident. */
  datatype File<T> = Broken(bytes: string, incident: Option<string>) | Good(doc: T)

  datatype IssueKind = OrphanSession | OrphanBinding

  /** The content of the one surviving file of a partial workflow. */
  datatype Orphan = LoneSession(session: File<SessionDoc>) | LoneBinding(binding: File<BindingDoc>) {
    function Kind(): IssueKind {
      if LoneSession? then OrphanSession else OrphanBinding
    }

    /** `_incident_id`: the incident the file names, if any; an empty name counts as none. */
    function Incident(): (r: Option<string>) {
      var named := match this
        case LoneSession(Good(d)) => Some(d.incident)
        case LoneBinding(Good(d)) => Some(d.incident)
        case LoneSession(Broken(_, i)) => i
        case LoneBinding(Broken(_, i)) => i;
      if named == Some("") then None else named
    }
  }

  /**
    The SHA-256 fingerprint over issue kind, file name and file content, represented by
    what it digests: two fingerprints agree exactly when kind, name and content do.
   */
  datatype Fingerprint = Fingerprint(sessionId: string, orphan: Orphan)

  datatype MarkerDoc = MarkerDoc(sessionId: string, incident: Option<string>, kind: IssueKind,
                                 fingerprint: Fingerprint, reconciledAt: int)

  datatype Files = Files(sessions: map<string, File<SessionDoc>>, bindings: map<string, File<BindingDoc>>,
                         abandoned: map<string, File<AbandonmentDoc>>, reconciled: map<string, File<MarkerDoc>>)
}
