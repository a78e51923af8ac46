/**
  The two readers of a session directory: pending discovery (scripts/probe_session_state.py)
  and the incident history (scripts/probe_workflow_history.py).
 */
module SessionReaders {
  import opened Prelude
  import opened Keys
  import opened SessionFiles
  import opened Reconciliation

  /** An evidence instance; a session label that is no session id counts as none. */
  datatype Reading = Reading(id: string, session: Option<string>, probe: Option<string>, executor: Option<string>,
                             scope: Scope, observedAt: int, content: string)

  datatype Evidence = Evidence(incident: string, instances: seq<Reading>)

  /** What both readers are given. */
  datatype Query = Query(files: Files, evidence: Evidence, asOf: int, maxAge: int)

  // ----- what both readers load

  /** `_session_result_instances` and `_result_instances`. */
  function ResultsOf(rs: seq<Reading>, sid: string): (r: seq<Reading>)
    ensures r != [] <==> exists x :: x in rs && x.session == Some(sid)
  {
    if rs == [] then []
    else (if rs[0].session == Some(sid) then [rs[0]] else []) + ResultsOf(rs[1..], sid)
  }

  function Results(q: Query, sid: string): seq<Reading> { ResultsOf(q.evidence.instances, sid) }

  /** The file is a binding of this session. */
  predicate BindingLoads(files: Files, sid: string)
    requires sid in files.bindings
    ensures BindingLoads(files, sid) <==> exists b :: files.bindings[sid] == Good(b) && b.sessionId == sid
  {
    files.bindings[sid].Good? && files.bindings[sid].doc.sessionId == sid
  }

  /** The file is an abandonment of this session in this incident. */
  predicate AbandonmentLoads(files: Files, sid: string, incident: string)
    requires sid in files.abandoned
    ensures AbandonmentLoads(files, sid, incident) <==>
            exists at :: files.abandoned[sid] == Good(AbandonmentDoc(sid, incident, at))
  {
    && files.abandoned[sid].Good?
    && files.abandoned[sid].doc.sessionId == sid && files.abandoned[sid].doc.incident == incident
  }

  /** The file is a reconciliation marker of this session. */
  predicate MarkerLoads(files: Files, sid: string)
    requires sid in files.reconciled
    ensures MarkerLoads(files, sid) <==> exists m :: files.reconciled[sid] == Good(m) && m.sessionId == sid
  {
    files.reconciled[sid].Good? && files.reconciled[sid].doc.sessionId == sid
  }

  predicate IsPair(files: Files, sid: string)
  {
    sid in files.sessions && sid in files.bindings
  }

  predicate SoundPair(files: Files, sid: string)
    requires IsPair(files, sid)
  {
    && files.sessions[sid].Good? && BindingLoads(files, sid)
    && Paired(sid, files.sessions[sid].doc, files.bindings[sid].doc)
  }

  /** `probe_session_expiration` and `classify_probe_session_lifecycle`. */
  function ExpiresAt(d: SessionDoc, maxAge: int): int { d.startedAt + maxAge }

  predicate IsExpired(q: Query, d: SessionDoc)
  {
    q.asOf >= ExpiresAt(d, q.maxAge)
  }

  // ----- pending discovery

  datatype Pending = Pending(sessionId: string, incident: string, target: string, probe: string, scope: Scope,
                             startedAt: int, expiresAt: int, expired: bool, revision: nat, executor: string)

  /** A session of the incident that is neither completed nor abandoned. */
  ghost predicate IsPending(q: Query, sid: string)
  {
    && IsPair(q.files, sid) && SoundPair(q.files, sid) && q.files.bindings[sid].doc.incident == q.evidence.incident
    && Results(q, sid) == [] && sid !in q.files.abandoned
  }

  ghost predicate DescribesPending(q: Query, p: Pending)
  {
    && IsPending(q, p.sessionId)
    && var (s, b) := (q.files.sessions[p.sessionId].doc, q.files.bindings[p.sessionId].doc);
       && p.incident == b.incident && p.target == b.target && p.probe == b.probe && p.scope == b.scope
       && p.revision == b.revision && p.startedAt == s.startedAt && p.executor == s.executor
       && p.expiresAt == s.startedAt + q.maxAge && (p.expired <==> q.asOf >= s.startedAt + q.maxAge)
  }

  /** What makes discovery raise at one binding file. */
  ghost predicate PendingFault(q: Query, sid: string)
  {
    && sid in q.files.bindings
    && (|| !BindingLoads(q.files, sid)
        || (&& q.files.bindings[sid].doc.incident == q.evidence.incident && sid in q.files.sessions
            && (|| !SoundPair(q.files, sid)
                || |Results(q, sid)| > 1
                || (Results(q, sid) == [] && sid in q.files.abandoned &&
                    !AbandonmentLoads(q.files, sid, q.evidence.incident)))))
  }

  ghost predicate PendingRaises(q: Query)
  {
    || q.maxAge <= 0
    || (exists sid :: Unresolved(q.files, Some(q.evidence.incident), sid).Some?)
    || (exists sid :: PendingFault(q, sid))
  }

  function ScopeKey(s: Scope): Key { Text(if s.None? then "null" else s.value) }

  function PendingSession(p: Pending): string { p.sessionId }

  function PendingKey(p: Pending): Key
  {
    Tuple([ScopeKey(p.scope), Text(p.target), Text(p.sessionId)])
  }

  /** By scope, where null counts as its JSON text, then target, then session id. */
  predicate PendingBefore(p: Pending, q: Pending)
  {
    var (s, t) := (if p.scope.None? then "null" else p.scope.value, if q.scope.None? then "null" else q.scope.value);
    || TextLess(s, t)
    || (s == t && (TextLess(p.target, q.target) || (p.target == q.target && TextLess(p.sessionId, q.sessionId))))
  }

  lemma PendingApart(p: Pending, q: Pending)
    requires PendingBefore(p, q)
    ensures p != q && (p.sessionId != q.sessionId || p.target != q.target || p.scope != q.scope)
  {
    TextIrreflexive(p.sessionId);
    TextIrreflexive(p.target);
    TextIrreflexive(if p.scope.None? then "null" else p.scope.value);
  }

  lemma PendingKeyMeans(p: Pending, q: Pending)
    requires Leq(PendingKey(p), PendingKey(q)) && p.sessionId != q.sessionId
    ensures PendingBefore(p, q)
  {
    var P, Q := PendingKey(p).parts, PendingKey(q).parts;
    assert P[0] == ScopeKey(p.scope) && P[1] == Text(p.target) && P[2] == Text(p.sessionId);
    assert Q[0] == ScopeKey(q.scope) && Q[1] == Text(q.target) && Q[2] == Text(q.sessionId);
    FirstDifference(P, Q);
    hide LessAll;
    hide TextLess;
  }

  /** Exactly the pending sessions, each described truly, in order of scope, target and session id. */
  ghost predicate PendingList(q: Query, ps: seq<Pending>)
  {
    && (forall p :: p in ps ==> DescribesPending(q, p))
    && (forall sid :: IsPending(q, sid) ==> exists p :: p in ps && p.sessionId == sid)
    && forall i, j :: 0 <= i < j < |ps| ==> PendingBefore(ps[i], ps[j])
  }

  /** The body of the discovery loop, for a binding file. */
  method ReadPending(q: Query, sid: string) returns (r: Result<Option<Pending>>)
    requires sid in q.files.bindings
    ensures r.Raised? <==> PendingFault(q, sid)
    ensures r.Ok? ==> (r.value.Some? <==> IsPending(q, sid))
    ensures r.Ok? && r.value.Some? ==> r.value.value.sessionId == sid && DescribesPending(q, r.value.value)
  {
    if !BindingLoads(q.files, sid) { return Raised; }
    var b := q.files.bindings[sid].doc;
    if b.incident != q.evidence.incident { return Ok(None); }
    if sid !in q.files.sessions { return Ok(None); }
    if !q.files.sessions[sid].Good? { return Raised; }
    var s := q.files.sessions[sid].doc;
    if !Paired(sid, s, b) { return Raised; }
    var results := Results(q, sid);
    if |results| > 1 { return Raised; }
    if results != [] { return Ok(None); }
    if sid in q.files.abandoned {
      if !AbandonmentLoads(q.files, sid, b.incident) { return Raised; }
      return Ok(None);
    }
    return Ok(Some(Pending(sid, b.incident, b.target, b.probe, b.scope, s.startedAt, ExpiresAt(s, q.maxAge),
                           IsExpired(q, s), b.revision, s.executor)));
  }

  /** `discover_pending_probe_sessions`. */
  method DiscoverPending(q: Query) returns (r: Result<seq<Pending>>)
    ensures r.Raised? <==> PendingRaises(q)
    ensures r.Ok? ==> PendingList(q, r.value)
  {
    hide Less;
    hide SortBy;
    hide IsPending;
    hide PendingFault;
    hide DescribesPending;
    hide Reconciliation.Unresolved;
    if q.maxAge <= 0 { return Raised; }
    var issues := Scan(q.files, Some(q.evidence.incident));
    if issues != [] {
      assert Unresolved(q.files, Some(q.evidence.incident), issues[0].sessionId).Some?;
      return Raised;
    }
    var sids := SortedElements(q.files.bindings.Keys, TextKey);
    var found: seq<Pending> := [];
    for k := 0 to |sids|
      invariant forall i :: 0 <= i < k ==> !PendingFault(q, sids[i])
      invariant forall i :: 0 <= i < |found| ==> DescribesPending(q, found[i]) && found[i].sessionId in sids[..k]
      invariant forall i :: 0 <= i < k && IsPending(q, sids[i]) ==> ListsPending(found, sids[i])
      invariant forall i, j :: 0 <= i < j < |found| ==> found[i].sessionId != found[j].sessionId
    {
      assert sids[..k + 1] == sids[..k] + [sids[k]] && sids[k] in sids;
      var one := ReadPending(q, sids[k]);
      if one.Raised? { return Raised; }
      if one.value.Some? {
        ListsMore(found, one.value.value);
        found := found + [one.value.value];
      }
    }
    assert sids[..|sids|] == sids;
    NoFaultElsewhere(q, sids);
    r := Ok(SortBy(found, PendingKey));
    AllPending(q, sids, found);
  }

  ghost predicate ListsPending(ps: seq<Pending>, sid: string)
  {
    exists i :: 0 <= i < |ps| && ps[i].sessionId == sid
  }

  lemma ListsMore(ps: seq<Pending>, p: Pending)
    ensures ListsPending(ps + [p], p.sessionId) && forall sid :: ListsPending(ps, sid) ==> ListsPending(ps + [p], sid)
  {
    assert (ps + [p])[|ps|] == p;
    forall sid | ListsPending(ps, sid) ensures ListsPending(ps + [p], sid) {
      var i :| 0 <= i < |ps| && ps[i].sessionId == sid;
      assert (ps + [p])[i] == ps[i];
    }
  }

  lemma NoFaultElsewhere(q: Query, sids: seq<string>)
    requires forall sid :: sid in sids <==> sid in q.files.bindings
    requires forall i :: 0 <= i < |sids| ==> !PendingFault(q, sids[i])
    ensures forall sid :: !PendingFault(q, sid)
  {
    forall sid ensures !PendingFault(q, sid) {
      if sid in q.files.bindings {
        assert sid in sids;
      }
    }
  }

  lemma {:induction false} AllPending(q: Query, sids: seq<string>, found: seq<Pending>)
    requires forall sid :: sid in sids <==> sid in q.files.bindings
    requires forall i :: 0 <= i < |found| ==> DescribesPending(q, found[i])
    requires forall i :: 0 <= i < |sids| && IsPending(q, sids[i]) ==> ListsPending(found, sids[i])
    requires forall i, j :: 0 <= i < j < |found| ==> found[i].sessionId != found[j].sessionId
    ensures PendingList(q, SortBy(found, PendingKey))
  {
    hide SortBy;
    hide DescribesPending;
    hide IsPending;
    hide Leq;
    hide PendingKey;
    hide PendingBefore;
    SortNamedApart(found, PendingKey, PendingSession);
    var ps := SortBy(found, PendingKey);
    forall i, j | 0 <= i < j < |ps| ensures PendingBefore(ps[i], ps[j]) {
      PendingKeyMeans(ps[i], ps[j]);
    }
    forall sid | IsPending(q, sid) ensures exists p :: p in ps && p.sessionId == sid {
      assert sid in sids by { PendingIsBound(q, sid); }
      var i :| 0 <= i < |found| && found[i].sessionId == sid;
      assert found[i] in found && found[i] in ps;
    }
  }

  lemma PendingIsBound(q: Query, sid: string)
    requires IsPending(q, sid)
    ensures sid in q.files.bindings
  {
  }

  // ----- history

  datatype Status = Active | Expired | Completed | Abandoned | ReconciledPartial | RecoveryRequired

  datatype Recovery = Recovery(kind: IssueKind, fingerprint: Fingerprint, reconciledAt: Option<int>)

  datatype Entry = Entry(sessionId: string, status: Status, incident: Option<string>, target: Option<string>,
                         probe: Option<string>, executor: Option<string>, scope: Scope, startedAt: Option<int>,
                         expiresAt: Option<int>, terminalAt: Option<int>, revision: Option<nat>,
                         outcome: Option<Reading>, abandonedAt: Option<int>, recovery: Option<Recovery>)

  /** `_empty_entry`. */
  function EmptyEntry(sid: string): Entry
  {
    Entry(sid, RecoveryRequired, None, None, None, None, None, None, None, None, None, None, None, None)
  }

  /** The session file loads. */
  predicate SessionSurvives(files: Files, sid: string)
  {
    sid in files.sessions && files.sessions[sid].Good?
  }

  /** The binding file loads, and no session file stopped the filling before it. */
  predicate BindingSurvives(files: Files, sid: string)
  {
    (sid in files.sessions ==> files.sessions[sid].Good?) && sid in files.bindings && BindingLoads(files, sid)
  }

  /** `_populate_from_surviving_artifact`: a file that does not load leaves the entry as it is. */
  function Populated(e: Entry, files: Files): (r: Entry)
    ensures r.sessionId == e.sessionId && r.status == e.status && r.terminalAt == e.terminalAt &&
            r.recovery == e.recovery
    ensures r.outcome == e.outcome && r.abandonedAt == e.abandonedAt && r.expiresAt == e.expiresAt
    ensures !SessionSurvives(files, e.sessionId) ==> r.executor == e.executor && r.startedAt == e.startedAt
    ensures SessionSurvives(files, e.sessionId) ==>
              var s := files.sessions[e.sessionId].doc;
              && r.executor == Some(s.executor) && r.startedAt == Some(s.startedAt)
              && (!BindingSurvives(files, e.sessionId) ==>
                    r.incident == Some(s.incident) && r.probe == Some(s.probe) && r.scope == s.scope)
    ensures !BindingSurvives(files, e.sessionId) ==> r.target == e.target && r.revision == e.revision
    ensures BindingSurvives(files, e.sessionId) ==>
              var b := files.bindings[e.sessionId].doc;
              && r.target == Some(b.target) && r.revision == Some(b.revision)
              && r.incident == Some(b.incident) && r.probe == Some(b.probe) && r.scope == b.scope
    ensures !SessionSurvives(files, e.sessionId) && !BindingSurvives(files, e.sessionId) ==> r == e
  {
    var sid := e.sessionId;
    if sid in files.sessions && !files.sessions[sid].Good? then e
    else
      var e1 :=
        if sid !in files.sessions then e
        else
          var s := files.sessions[sid].doc;
          e.(incident := Some(s.incident), probe := Some(s.probe), executor := Some(s.executor), scope := s.scope,
             startedAt := Some(s.startedAt));
      if sid !in files.bindings || !BindingLoads(files, sid) then e1
      else
        var b := files.bindings[sid].doc;
        e1.(incident := Some(b.incident), target := Some(b.target), probe := Some(b.probe), scope := b.scope,
            revision := Some(b.revision))
  }

  /** The reconciliation marker that concerns this incident, or names none. */
  function Marker(q: Query, sid: string): (r: Option<MarkerDoc>)
    ensures forall m :: r == Some(m) <==>
              && sid in q.files.reconciled && q.files.reconciled[sid] == Good(m) && m.sessionId == sid
              && m.incident in {None, Some(q.evidence.incident)}
  {
    if sid in q.files.reconciled && MarkerLoads(q.files, sid) &&
       (q.files.reconciled[sid].doc.incident.None? || q.files.reconciled[sid].doc.incident == Some(q.evidence.incident))
    then Some(q.files.reconciled[sid].doc) else None
  }

  function MarkerRecovery(m: MarkerDoc): Recovery { Recovery(m.kind, m.fingerprint, Some(m.reconciledAt)) }

  /** The one status of a session id in the incident's history, or none. */
  ghost function StatusOf(q: Query, sid: string): Option<Status>
  {
    if Unresolved(q.files, Some(q.evidence.incident), sid).Some? then Some(RecoveryRequired)
    else if IsPair(q.files, sid) then
      if !q.files.sessions[sid].Good? || q.files.sessions[sid].doc.incident != q.evidence.incident then None
      else if Results(q, sid) != [] then Some(Completed)
      else if sid in q.files.abandoned then Some(Abandoned)
      else if q.files.sessions[sid].doc.startedAt + q.maxAge <= q.asOf then Some(Expired)
      else Some(Active)
    else if Marker(q, sid).Some? then Some(ReconciledPartial)
    else if OrphanOf(q.files, sid).None? && Results(q, sid) != [] then Some(Completed)
    else None
  }

  /** What makes the history raise at one session id. */
  ghost predicate HistoryFault(q: Query, sid: string)
  {
    && Unresolved(q.files, Some(q.evidence.incident), sid).None?
    && (|| (sid in q.files.reconciled && !MarkerLoads(q.files, sid))
        || (OrphanOf(q.files, sid).None? && |Results(q, sid)| > 1)
        || (IsPair(q.files, sid) &&
            (|| !SoundPair(q.files, sid)
             || (q.files.sessions[sid].doc.incident == q.evidence.incident && sid in q.files.abandoned &&
                 (!AbandonmentLoads(q.files, sid, q.evidence.incident) || Results(q, sid) != []))))
        || (!IsPair(q.files, sid) && OrphanOf(q.files, sid).None? && Marker(q, sid).None? && Results(q, sid) == [] &&
            sid in q.files.abandoned))
  }

  function OnlyResult(q: Query, sid: string): (r: Option<Reading>)
    ensures r.Some? <==> |Results(q, sid)| == 1
    ensures r.Some? ==> r.value.session == Some(sid) && r.value in q.evidence.instances
  {
    if |Results(q, sid)| == 1 then
      ResultsOnly(q.evidence.instances, sid);
      Some(Results(q, sid)[0])
    else None
  }

  lemma {:induction false} ResultsOnly(rs: seq<Reading>, sid: string)
    ensures forall x :: x in ResultsOf(rs, sid) ==> x in rs && x.session == Some(sid)
  {
    if rs != [] { ResultsOnly(rs[1..], sid); }
  }

  function AbandonedAt(q: Query, sid: string): Option<int>
  {
    if sid in q.files.abandoned && q.files.abandoned[sid].Good? then Some(q.files.abandoned[sid].doc.abandonedAt)
    else None
  }

  function ObservedAt(x: Option<Reading>): Option<int> { if x.Some? then Some(x.value.observedAt) else None }

  /** What the entry of a session with both files says. */
  ghost predicate DescribesPair(q: Query, e: Entry)
    requires IsPair(q.files, e.sessionId) && SoundPair(q.files, e.sessionId)
  {
    var sid := e.sessionId;
    var s, b := q.files.sessions[sid].doc, q.files.bindings[sid].doc;
    && e.incident == Some(q.evidence.incident) && e.target == Some(b.target) && e.probe == Some(b.probe)
    && e.executor == Some(s.executor) && e.scope == b.scope && e.startedAt == Some(s.startedAt)
    && e.expiresAt == Some(s.startedAt + q.maxAge) && e.revision == Some(b.revision)
    && e.recovery == (match Marker(q, sid) case None => None case Some(m) => Some(MarkerRecovery(m)))
    && e.outcome == OnlyResult(q, sid) && (e.status == Completed <==> e.outcome.Some?)
    && e.abandonedAt == AbandonedAt(q, sid) && (e.status == Abandoned <==> e.abandonedAt.Some?)
    && e.terminalAt == (if e.status == Completed then ObservedAt(e.outcome) else e.abandonedAt)
  }

  /** An entry with the right status and the content that status calls for. */
  ghost predicate DescribesEntry(q: Query, e: Entry)
  {
    var sid := e.sessionId;
    && StatusOf(q, sid) == Some(e.status)
    && (IsPair(q.files, sid) ==> SoundPair(q.files, sid) && DescribesPair(q, e))
    && (e.status == RecoveryRequired ==>
          && Unresolved(q.files, Some(q.evidence.incident), sid).Some?
          && var issue := Unresolved(q.files, Some(q.evidence.incident), sid).value;
             e == Populated(EmptyEntry(sid).(incident := issue.incident), q.files)
                  .(recovery := Some(Recovery(issue.kind, issue.fingerprint, None))))
    && (e.status == ReconciledPartial ==>
          && Marker(q, sid).Some?
          && e == PartialEntry(q, sid, Marker(q, sid).value))
    && (e.status == Completed && !IsPair(q.files, sid) ==>
          && OnlyResult(q, sid).Some?
          && var x := OnlyResult(q, sid).value;
             e == EmptyEntry(sid).(status := Completed, incident := Some(q.evidence.incident), probe := x.probe,
                                   executor := x.executor, scope := x.scope,
                                      terminalAt := Some(x.observedAt), outcome := Some(x)))
  }

  function PartialEntry(q: Query, sid: string, m: MarkerDoc): Entry
  {
    Populated(EmptyEntry(sid).(status := ReconciledPartial, incident := m.incident,
                               terminalAt := Some(m.reconciledAt)), q.files)
    .(recovery := Some(MarkerRecovery(m)))
  }

  /** The body of the history loop, for a session without an unresolved issue and with none or one of its two files. */
  method ReadPartial(q: Query, sid: string, marker: Option<MarkerDoc>) returns (r: Result<Option<Entry>>)
    requires Unresolved(q.files, Some(q.evidence.incident), sid).None? && !IsPair(q.files, sid)
    requires sid in q.files.reconciled ==> MarkerLoads(q.files, sid)
    requires marker == Marker(q, sid)
    ensures r.Raised? <==> HistoryFault(q, sid)
    ensures r.Ok? ==> (r.value.None? <==> StatusOf(q, sid).None?)
    ensures r.Ok? && r.value.Some? ==> r.value.value.sessionId == sid && DescribesEntry(q, r.value.value)
  {
    hide Populated;
    if sid in q.files.sessions || sid in q.files.bindings {
      if marker.None? { return Ok(None); }
      return Ok(Some(PartialEntry(q, sid, marker.value)));
    }
    var results := Results(q, sid);
    if |results| > 1 { return Raised; }
    if marker.Some? { return Ok(Some(PartialEntry(q, sid, marker.value))); }
    if results != [] {
      var x := results[0];
      return Ok(Some(EmptyEntry(sid).(status := Completed, incident := Some(q.evidence.incident), probe := x.probe,
                                      executor := x.executor, scope := x.scope, terminalAt := Some(x.observedAt),
                                      outcome := Some(x))));
    }
    if sid in q.files.abandoned { return Raised; }
    return Ok(None);
  }

  /** The body of the history loop, for a session with both its files. */
  method ReadPair(q: Query, sid: string, marker: Option<MarkerDoc>) returns (r: Result<Option<Entry>>)
    requires Unresolved(q.files, Some(q.evidence.incident), sid).None? && IsPair(q.files, sid)
    requires sid in q.files.reconciled ==> MarkerLoads(q.files, sid)
    requires marker == Marker(q, sid)
    ensures r.Raised? <==> HistoryFault(q, sid)
    ensures r.Ok? ==> (r.value.None? <==> StatusOf(q, sid).None?)
    ensures r.Ok? && r.value.Some? ==> r.value.value.sessionId == sid && DescribesEntry(q, r.value.value)
  {
    hide Reconciliation.Unresolved;
    hide Marker;
    var results := Results(q, sid);
    if |results| > 1 { return Raised; }
    if !q.files.sessions[sid].Good? || !BindingLoads(q.files, sid) { return Raised; }
    var s, b := q.files.sessions[sid].doc, q.files.bindings[sid].doc;
    if !Paired(sid, s, b) { return Raised; }
    if s.incident != q.evidence.incident { return Ok(None); }
    var abandonedAt := None;
    if sid in q.files.abandoned {
      if !AbandonmentLoads(q.files, sid, q.evidence.incident) { return Raised; }
      abandonedAt := Some(q.files.abandoned[sid].doc.abandonedAt);
    }
    if results != [] && abandonedAt.Some? { return Raised; }
    var e := Entry(sid, if IsExpired(q, s) then Expired else Active,
                   Some(q.evidence.incident), Some(b.target), Some(b.probe),
                   Some(s.executor), b.scope, Some(s.startedAt), Some(ExpiresAt(s, q.maxAge)), None, Some(b.revision),
                   None, None, if marker.Some? then Some(MarkerRecovery(marker.value)) else None);
    if results != [] {
      e := e.(status := Completed, terminalAt := Some(results[0].observedAt), outcome := Some(results[0]));
    } else if abandonedAt.Some? {
      e := e.(status := Abandoned, terminalAt := abandonedAt, abandonedAt := abandonedAt);
    }
    return Ok(Some(e));
  }

  /** The body of the history loop. */
  method ReadEntry(q: Query, sid: string, issue: Option<Issue>) returns (r: Result<Option<Entry>>)
    requires issue == Unresolved(q.files, Some(q.evidence.incident), sid)
    ensures r.Raised? <==> HistoryFault(q, sid)
    ensures r.Ok? ==> (r.value.None? <==> StatusOf(q, sid).None?)
    ensures r.Ok? && r.value.Some? ==> r.value.value.sessionId == sid && DescribesEntry(q, r.value.value)
  {
    if issue.Some? {
      var e := Populated(EmptyEntry(sid).(incident := issue.value.incident), q.files);
      return Ok(Some(e.(recovery := Some(Recovery(issue.value.kind, issue.value.fingerprint, None)))));
    }
    hide Reconciliation.Unresolved;
    if sid in q.files.reconciled && !MarkerLoads(q.files, sid) { return Raised; }
    var marker := Marker(q, sid);
    if sid in q.files.sessions && sid in q.files.bindings {
      r := ReadPair(q, sid, marker);
    } else {
      r := ReadPartial(q, sid, marker);
    }
  }

  // ----- the document

  datatype History = History(sessions: seq<Entry>, summary: map<Status, nat>)

  const STATUSES: set<Status> := {Active, Expired, Completed, Abandoned, ReconciledPartial, RecoveryRequired}

  /** The time of an entry, with none before any time; then its session id. */
  function EntryKey(e: Entry): Key
  {
    Tuple([TimeKey(if e.startedAt.Some? then e.startedAt else e.terminalAt), Text(e.sessionId)])
  }

  function EntrySession(e: Entry): string { e.sessionId }

  /** When a session started or, if no start is known, ended. */
  function TimeOf(e: Entry): Option<int>
  {
    if e.startedAt.Some? then e.startedAt else e.terminalAt
  }

  /** By time, with no known time before any, then by session id. */
  predicate EntryBefore(e: Entry, f: Entry)
  {
    match (TimeOf(e), TimeOf(f))
    case (Some(s), Some(t)) => s < t || (s == t && TextLess(e.sessionId, f.sessionId))
    case (None, None) => TextLess(e.sessionId, f.sessionId)
    case (None, Some(_)) => true
    case (Some(_), None) => false
  }

  lemma EntryKeyMeans(e: Entry, f: Entry)
    requires Leq(EntryKey(e), EntryKey(f)) && e.sessionId != f.sessionId
    ensures EntryBefore(e, f)
  {
    var P, Q := EntryKey(e).parts, EntryKey(f).parts;
    assert P[1] == Text(e.sessionId) && Q[1] == Text(f.sessionId);
    FirstDifference(P, Q);
    assert P[0] == TimeKey(TimeOf(e)) && Q[0] == TimeKey(TimeOf(f));
    TimeKeyMeans(TimeOf(e), TimeOf(f));
    hide LessAll;
    hide TextLess;
  }

  function TimeKey(t: Option<int>): Key
  {
    Tuple(if t.Some? then [Num(t.value)] else [])
  }

  lemma TimeKeyMeans(s: Option<int>, t: Option<int>)
    ensures Less(TimeKey(s), TimeKey(t)) <==> t.Some? && (s.Some? ==> s.value < t.value)
    ensures TimeKey(s) == TimeKey(t) ==> s == t
  {
    var P, Q := TimeKey(s).parts, TimeKey(t).parts;
    assert Less(TimeKey(s), TimeKey(t)) <==> LessAll(P, Q);
    if s.Some? && t.Some? {
      FirstDifference(P, Q);
      assert P[0] == Num(s.value) && Q[0] == Num(t.value);
    }
  }

  ghost function CountOf(es: seq<Entry>, s: Status): nat
  {
    if es == [] then 0 else CountOf(es[..|es| - 1], s) + if es[|es| - 1].status == s then 1 else 0
  }

  /** One entry for each session id that has a status, in order of time and session id. */
  ghost predicate Entries(q: Query, es: seq<Entry>)
  {
    && (forall e :: e in es ==> DescribesEntry(q, e))
    && (forall sid :: StatusOf(q, sid).Some? ==> exists e :: e in es && e.sessionId == sid)
    && forall i, j :: 0 <= i < j < |es| ==> EntryBefore(es[i], es[j])
  }

  ghost predicate Summarized(h: History)
  {
    && h.summary.Keys == STATUSES
    && forall s :: s in STATUSES ==> h.summary[s] == CountOf(h.sessions, s)
  }

  /** The ids a session is looked for under: file names and evidence labels. */
  function CandidateIds(q: Query): set<string>
  {
    q.files.sessions.Keys + q.files.bindings.Keys + q.files.abandoned.Keys + q.files.reconciled.Keys +
    LabelledSessions(q.evidence.instances)
  }

  function LabelledSessions(rs: seq<Reading>): (r: set<string>)
    ensures forall sid :: sid in r <==> exists x :: x in rs && x.session == Some(sid)
  {
    if rs == [] then {}
    else (if rs[0].session.Some? then {rs[0].session.value} else {}) + LabelledSessions(rs[1..])
  }

  lemma StatusIsCandidate(q: Query, sid: string)
    ensures StatusOf(q, sid).Some? || HistoryFault(q, sid) ==> sid in CandidateIds(q)
  {
    hide SoundPair;
    if sid !in CandidateIds(q) {
      assert Results(q, sid) == [];
    }
  }

  ghost predicate ListsEntry(es: seq<Entry>, sid: string)
  {
    exists i :: 0 <= i < |es| && es[i].sessionId == sid
  }

  lemma ListsEntryMore(es: seq<Entry>, e: Entry)
    ensures ListsEntry(es + [e], e.sessionId) && forall sid :: ListsEntry(es, sid) ==> ListsEntry(es + [e], sid)
  {
    assert (es + [e])[|es|] == e;
    forall sid | ListsEntry(es, sid) ensures ListsEntry(es + [e], sid) {
      var i :| 0 <= i < |es| && es[i].sessionId == sid;
      assert (es + [e])[i] == es[i];
    }
  }

  /** The issue a scan reported for a session id. */
  method IssueOf(q: Query, issues: seq<Issue>, sid: string) returns (r: Option<Issue>)
    requires Report(q.files, Some(q.evidence.incident), issues)
    ensures r == Unresolved(q.files, Some(q.evidence.incident), sid)
  {
    for i := 0 to |issues|
      invariant forall k :: 0 <= k < i ==> issues[k].sessionId != sid
    {
      if issues[i].sessionId == sid { return Some(issues[i]); }
    }
    ReportedUnresolved(q.files, Some(q.evidence.incident), issues, sid);
    return None;
  }

  /** `build_probe_workflow_history`. */
  method BuildHistory(q: Query, requested: Option<string>) returns (r: Result<History>)
    ensures r.Raised? <==>
            (requested.Some? && requested.value != q.evidence.incident) || q.maxAge <= 0 ||
            exists sid :: HistoryFault(q, sid)
    ensures r.Ok? ==> Entries(q, r.value.sessions) && Summarized(r.value)
  {
    hide Less;
    hide SortBy;
    hide StatusOf;
    hide HistoryFault;
    hide DescribesEntry;
    hide CandidateIds;
    hide Reconciliation.Report;
    hide Reconciliation.Unresolved;
    if requested.Some? && requested.value != q.evidence.incident { return Raised; }
    if q.maxAge <= 0 { return Raised; }
    var issues := Scan(q.files, Some(q.evidence.incident));
    var sids := SortedElements(CandidateIds(q), TextKey);
    var found: seq<Entry> := [];
    for k := 0 to |sids|
      invariant forall i :: 0 <= i < k ==> !HistoryFault(q, sids[i])
      invariant forall i :: 0 <= i < |found| ==> DescribesEntry(q, found[i]) && found[i].sessionId in sids[..k]
      invariant forall i :: 0 <= i < k && StatusOf(q, sids[i]).Some? ==> ListsEntry(found, sids[i])
      invariant forall i, j :: 0 <= i < j < |found| ==> found[i].sessionId != found[j].sessionId
    {
      assert sids[..k + 1] == sids[..k] + [sids[k]];
      var issue := IssueOf(q, issues, sids[k]);
      var one := ReadEntry(q, sids[k], issue);
      if one.Raised? { return Raised; }
      if one.value.Some? {
        ListsEntryMore(found, one.value.value);
        found := found + [one.value.value];
      }
    }
    assert sids[..|sids|] == sids;
    AllEntries(q, sids, found);
    var sessions := SortBy(found, EntryKey);
    var summary := Summarize(sessions);
    r := Ok(History(sessions, summary));
  }

  lemma {:induction false} AllEntries(q: Query, sids: seq<string>, found: seq<Entry>)
    requires forall sid :: sid in sids <==> sid in CandidateIds(q)
    requires forall i :: 0 <= i < |sids| ==> !HistoryFault(q, sids[i])
    requires forall i :: 0 <= i < |found| ==> DescribesEntry(q, found[i])
    requires forall i :: 0 <= i < |sids| && StatusOf(q, sids[i]).Some? ==> ListsEntry(found, sids[i])
    requires forall i, j :: 0 <= i < j < |found| ==> found[i].sessionId != found[j].sessionId
    ensures Entries(q, SortBy(found, EntryKey)) && forall sid :: !HistoryFault(q, sid)
  {
    hide Less;
    hide SortBy;
    hide StatusOf;
    hide HistoryFault;
    hide DescribesEntry;
    hide CandidateIds;
    forall sid ensures !HistoryFault(q, sid) && (StatusOf(q, sid).Some? ==> ListsEntry(found, sid)) {
      StatusIsCandidate(q, sid);
      if sid in CandidateIds(q) { assert sid in sids; }
    }
    SortedEntries(q, found);
  }

  lemma {:induction false} SortedEntries(q: Query, found: seq<Entry>)
    requires forall i :: 0 <= i < |found| ==> DescribesEntry(q, found[i])
    requires forall sid :: StatusOf(q, sid).Some? ==> ListsEntry(found, sid)
    requires forall i, j :: 0 <= i < j < |found| ==> found[i].sessionId != found[j].sessionId
    ensures Entries(q, SortBy(found, EntryKey))
  {
    hide SortBy;
    hide StatusOf;
    hide DescribesEntry;
    hide Leq;
    hide EntryKey;
    hide EntryBefore;
    SortNamedApart(found, EntryKey, EntrySession);
    var es := SortBy(found, EntryKey);
    forall i, j | 0 <= i < j < |es| ensures EntryBefore(es[i], es[j]) {
      EntryKeyMeans(es[i], es[j]);
    }
    forall sid | StatusOf(q, sid).Some? ensures exists e :: e in es && e.sessionId == sid {
      var i :| 0 <= i < |found| && found[i].sessionId == sid;
      assert found[i] in found && found[i] in es;
    }
  }

  lemma EveryStatus(s: Status)
    ensures s in STATUSES
  {
    match s case _ =>
  }

  /** The counting loop. */
  method Summarize(es: seq<Entry>) returns (m: map<Status, nat>)
    ensures m.Keys == STATUSES && forall s :: s in STATUSES ==> m[s] == CountOf(es, s)
  {
    m := map s | s in STATUSES :: 0;
    for k := 0 to |es|
      invariant m.Keys == STATUSES && forall s :: s in STATUSES ==> m[s] == CountOf(es[..k], s)
    {
      assert es[..k + 1][..k] == es[..k];
      EveryStatus(es[k].status);
      m := m[es[k].status := m[es[k].status] + 1];
    }
    assert es[..|es|] == es;
  }

  // ----- laws

  lemma {:induction false} CountsAddUp(es: seq<Entry>)
    ensures CountOf(es, Active) + CountOf(es, Expired) + CountOf(es, Completed) + CountOf(es, Abandoned) +
            CountOf(es, ReconciledPartial) + CountOf(es, RecoveryRequired) == |es|
  {
    if es != [] { CountsAddUp(es[..|es| - 1]); }
  }

  /** The summary counts every entry under exactly one status. */
  lemma SummaryTotals(q: Query, h: History)
    requires Entries(q, h.sessions) && Summarized(h)
    ensures h.summary[Active] + h.summary[Expired] + h.summary[Completed] + h.summary[Abandoned] +
            h.summary[ReconciledPartial] + h.summary[RecoveryRequired] == |h.sessions|
  {
    CountsAddUp(h.sessions);
  }

  /** Started this long ago or longer, the session's time is over; `asOf` is when the reader looks. */
  ghost predicate TimeOver(q: Query, sid: string)
    requires sid in q.files.sessions && q.files.sessions[sid].Good?
  {
    q.asOf - q.files.sessions[sid].doc.startedAt >= q.maxAge
  }

  /**
    Both readers show the same expiry, the start plus the age limit, and call a session expired
    exactly when that time has come.
   */
  lemma ExpiryShown(q: Query, ps: seq<Pending>, h: History)
    requires PendingList(q, ps) && Entries(q, h.sessions)
    ensures forall p :: p in ps ==>
              && p.sessionId in q.files.sessions && q.files.sessions[p.sessionId].Good?
              && p.expiresAt - q.files.sessions[p.sessionId].doc.startedAt == q.maxAge
              && (p.expired <==> TimeOver(q, p.sessionId))
    ensures forall e :: e in h.sessions && e.status in {Active, Expired} ==>
              && e.sessionId in q.files.sessions && q.files.sessions[e.sessionId].Good? && e.expiresAt.Some?
              && e.expiresAt.value - q.files.sessions[e.sessionId].doc.startedAt == q.maxAge
              && (e.status == Expired <==> TimeOver(q, e.sessionId))
  {
    forall p | p in ps ensures p.sessionId in q.files.sessions { DescribedIsPending(q, p); }
    forall e | e in h.sessions && e.status in {Active, Expired}
      ensures && e.sessionId in q.files.sessions && q.files.sessions[e.sessionId].Good? && e.expiresAt.Some?
              && e.expiresAt.value - q.files.sessions[e.sessionId].doc.startedAt == q.maxAge
              && (e.status == Expired <==> TimeOver(q, e.sessionId))
    {
      ExpiryOf(q, e);
    }
  }

  lemma ExpiryOf(q: Query, e: Entry)
    requires DescribesEntry(q, e) && e.status in {Active, Expired}
    ensures e.sessionId in q.files.sessions && q.files.sessions[e.sessionId].Good? && e.expiresAt.Some?
    ensures e.expiresAt.value - q.files.sessions[e.sessionId].doc.startedAt == q.maxAge
    ensures e.status == Expired <==> TimeOver(q, e.sessionId)
  {
    hide Populated;
    hide Marker;
  }

  /** Read later, an active session may have expired; no other status changes, and none comes or goes. */
  lemma LaterStatus(q: Query, later: int, sid: string)
    requires q.asOf <= later
    ensures var after := StatusOf(q.(asOf := later), sid);
            || after == StatusOf(q, sid)
            || (StatusOf(q, sid) == Some(Active) && after == Some(Expired))
  {
    hide Reconciliation.Unresolved;
  }

  /** An entry and a pending session tell the same about the same session. */
  predicate SameSession(e: Entry, p: Pending)
  {
    && e.sessionId == p.sessionId && e.status == (if p.expired then Expired else Active)
    && e.incident == Some(p.incident) && e.target == Some(p.target) && e.probe == Some(p.probe) && e.scope == p.scope
    && e.startedAt == Some(p.startedAt) && e.expiresAt == Some(p.expiresAt) && e.revision == Some(p.revision)
    && e.executor == Some(p.executor)
  }

  lemma PendingStatus(q: Query, sid: string)
    ensures IsPending(q, sid) ==> StatusOf(q, sid) in {Some(Active), Some(Expired)}
    ensures StatusOf(q, sid) in {Some(Active), Some(Expired)} && SoundIfPair(q, sid) ==> IsPending(q, sid)
  {
  }

  ghost predicate SoundIfPair(q: Query, sid: string)
  {
    IsPair(q.files, sid) ==> SoundPair(q.files, sid)
  }

  lemma SameDescription(q: Query, e: Entry, p: Pending)
    requires DescribesEntry(q, e) && DescribesPending(q, p) && e.sessionId == p.sessionId
    ensures SameSession(e, p)
  {
    hide Populated;
    hide Marker;
  }

  /**
    Whenever both readers succeed on the same files, clock and age limit, the history's active
    and expired entries are exactly the pending sessions, told alike.
   */
  lemma ReadersAgree(q: Query, ps: seq<Pending>, h: History)
    requires PendingList(q, ps) && Entries(q, h.sessions)
    ensures forall p :: p in ps ==> exists e :: e in h.sessions && SameSession(e, p)
    ensures forall e :: e in h.sessions && e.status in {Active, Expired} ==> exists p :: p in ps && SameSession(e, p)
  {
    hide DescribesPending;
    hide DescribesEntry;
    hide IsPending;
    hide StatusOf;
    forall p | p in ps ensures exists e :: e in h.sessions && SameSession(e, p) {
      assert IsPending(q, p.sessionId) by { DescribedIsPending(q, p); }
      PendingStatus(q, p.sessionId);
      var e :| e in h.sessions && e.sessionId == p.sessionId;
      SameDescription(q, e, p);
    }
    forall e | e in h.sessions && e.status in {Active, Expired} ensures exists p :: p in ps && SameSession(e, p) {
      DescribedIsSound(q, e);
      PendingStatus(q, e.sessionId);
      var p :| p in ps && p.sessionId == e.sessionId;
      SameDescription(q, e, p);
    }
  }

  lemma DescribedIsPending(q: Query, p: Pending)
    requires DescribesPending(q, p)
    ensures IsPending(q, p.sessionId)
  {
  }

  lemma DescribedIsSound(q: Query, e: Entry)
    requires DescribesEntry(q, e)
    ensures StatusOf(q, e.sessionId) == Some(e.status) && SoundIfPair(q, e.sessionId)
  {
    hide StatusOf;
    hide DescribesPair;
  }

  /** A binding file on its own that does not load. */
  ghost predicate UnreadableLoneBinding(q: Query, sid: string)
  {
    sid in q.files.bindings && sid !in q.files.sessions && !BindingLoads(q.files, sid)
  }

  lemma FaultsCompared(q: Query, sid: string)
    requires !HistoryFault(q, sid)
    ensures PendingFault(q, sid) <==> UnreadableLoneBinding(q, sid)
  {
    hide Reconciliation.Unresolved;
    hide Marker;
    if IsPair(q.files, sid) { PairResolved(q, sid); }
  }

  lemma PairResolved(q: Query, sid: string)
    requires IsPair(q.files, sid)
    ensures Unresolved(q.files, Some(q.evidence.incident), sid).None?
  {
  }

  /**
    Where the history succeeds, pending discovery succeeds too if and only if the history shows
    nothing to recover and no lone binding file is unreadable; a discarded one still counts.
   */
  lemma DiscoveryRaisesIff(q: Query, h: History)
    requires q.maxAge > 0 && (forall sid :: !HistoryFault(q, sid)) && Entries(q, h.sessions)
    ensures PendingRaises(q) <==>
            || (exists e :: e in h.sessions && e.status == RecoveryRequired)
            || (exists sid :: UnreadableLoneBinding(q, sid))
  {
    hide PendingFault;
    hide HistoryFault;
    hide UnreadableLoneBinding;
    hide DescribesEntry;
    hide Reconciliation.Unresolved;
    hide Marker;
    hide Results;
    forall sid ensures PendingFault(q, sid) <==> UnreadableLoneBinding(q, sid) { FaultsCompared(q, sid); }
    forall sid | Unresolved(q.files, Some(q.evidence.incident), sid).Some?
      ensures exists e :: e in h.sessions && e.status == RecoveryRequired
    {
      assert StatusOf(q, sid) == Some(RecoveryRequired);
      var e :| e in h.sessions && e.sessionId == sid;
      DescribedIsSound(q, e);
    }
    forall e | e in h.sessions && e.status == RecoveryRequired
      ensures Unresolved(q.files, Some(q.evidence.incident), e.sessionId).Some?
    {
      DescribedIsSound(q, e);
    }
  }

  /** Discarding a lone, unreadable binding settles the scan, but discovery raises for as long as the file is there. */
  lemma DiscardedBindingBlocks(q: Query, sid: string, at: int)
    requires UnreadableLoneBinding(q, sid)
    ensures var after := q.(files := Reconciled(q.files, sid, at));
            && Unresolved(after.files, Some(q.evidence.incident), sid).None?
            && PendingFault(after, sid) && PendingRaises(after)
  {
    ReconcileRemovesOne(q.files, sid, at, Some(q.evidence.incident), sid);
    var after := q.(files := Reconciled(q.files, sid, at));
    assert PendingFault(after, sid);
  }
}
