/**
  Exactly which claims keep one open session per slot: a begin that claims the null scope
  may re-read a named scope, and then its claim does not keep another begin out of that scope.
 */
module ProbeNullScope {
  import opened Prelude
  import opened SessionFiles
  import Journal
  import opened ProbeProtocol
  import opened ProbeSlots
  import opened ProbeGenuine
  import opened SchemaText

  // ----- building such a run

  /** Where a run starts, and the claims it may take. */
  datatype Course = Course(checked: bool, ids: Ids, start: World, at: int, claims: iset<Claim>)

  ghost predicate Leads(c: Course, s: seq<Action>, v: World, now: int)
  {
    && Genuine(c.checked, c.ids, c.start, s, c.at) && Takes(c.start, s, c.claims) && Run(c.start, s)[|s|] == v
    && c.at <= now
    && forall k :: 0 <= k < |s| && s[k].move.Continue? ==> s[k].move.outside.now <= now
  }

  ghost predicate Reach(c: Course, v: World, now: int)
  {
    exists s :: Leads(c, s, v, now)
  }

  lemma {:induction false} RunSnoc(w: World, s: seq<Action>, a: Action)
    ensures Run(w, s + [a]) == Run(w, s) + [Step(Run(w, s)[|s|], a.pid, a.move)]
    decreases |s|
  {
    hide Step;
    if s == [] {
      assert s + [a] == [a] && [a][1..] == [];
      assert Run(Step(w, a.pid, a.move), []) == [Step(w, a.pid, a.move)];
    } else {
      assert (s + [a])[1..] == s[1..] + [a];
      RunSnoc(Step(w, s[0].pid, s[0].move), s[1..], a);
    }
  }

  lemma Standing(c: Course)
    requires WellFormed(c.ids) && Starts(c.checked, c.start, c.at) && Within(c.start, c.claims)
    ensures Reach(c, c.start, c.at)
  {
    hide Starts;
    assert Leads(c, [], c.start, c.at);
  }

  lemma Later(c: Course, v: World, now: int, later: int)
    requires Reach(c, v, now) && now <= later
    ensures Reach(c, v, later)
  {
    hide Genuine;
    hide Takes;
    var s :| Leads(c, s, v, now);
    assert Leads(c, s, v, later);
  }

  /** One more step. */
  lemma Go(c: Course, v: World, now: int, p: Pid, m: Move)
    requires Reach(c, v, now) && (m.Continue? ==> m.outside.now == now)
    requires Plausible(c.checked, c.ids, v, Action(p, m)) && Within(Step(v, p, m), c.claims)
    ensures Reach(c, Step(v, p, m), now)
  {
    hide Step;
    hide Plausible;
    hide Within;
    hide Starts;
    var s :| Leads(c, s, v, now);
    var a := Action(p, m);
    RunSnoc(c.start, s, a);
    hide Run;
    assert Genuine(c.checked, c.ids, c.start, s + [a], c.at);
    assert Leads(c, s + [a], Step(v, p, m), now);
  }

  lemma WithinNow(c: Course, v: World, now: int)
    requires Reach(c, v, now)
    ensures Within(v, c.claims)
  {
    hide Genuine;
    hide Within;
    var s :| Leads(c, s, v, now);
  }

  function Quiet(now: int, pick: string): Outside
  {
    Outside(now, pick, true, "", Instance("", None, None, "", false, now, None, ""), [])
  }

  function Place(w: World, p: Pid, q: Proc): World { w.(procs := w.procs[p := q]) }

  lemma PlaceTwice(w: World, p: Pid, q: Proc, r: Proc)
    ensures Place(Place(w, p, q), p, r) == Place(w, p, r)
  {
    assert w.procs[p := q][p := r] == w.procs[p := r];
  }

  lemma PlaceSame(w: World, p: Pid)
    requires p in w.procs
    ensures Place(w, p, w.At(p)) == w
  {
    assert w.procs[p := w.procs[p]] == w.procs;
  }

  /** A step of p from q in world v that leaves p at r in world v', which takes no target-scope claim. */
  lemma Hop(c: Course, v: World, now: int, p: Pid, q: Proc, o: Outside, v': World, r: Proc)
    requires Reach(c, Place(v, p, q), now) && o.now == now
    requires Step(Place(v, p, q), p, Continue(o)) == Place(Place(v', p, q), p, r)
    requires Plausible(c.checked, c.ids, Place(v, p, q), Action(p, Continue(o)))
    requires forall k :: k in v'.claims && k.TargetScope? ==> k in v.claims || k in c.claims
    ensures Reach(c, Place(v', p, r), now)
  {
    hide Step;
    hide Reach;
    hide Plausible;
    WithinNow(c, Place(v, p, q), now);
    PlaceTwice(v', p, q, r);
    Go(c, Place(v, p, q), now, p, Continue(o));
  }

  // ----- one operation, on its own

  lemma FindsOnly(s: Snapshot, r: Recommendation, requested: Scope)
    requires s.recommended == [r] && Fits(r, r.target, requested)
    ensures FindRecommendation(s, r.target, requested) == Some(r)
  {
    assert OnlyFits(s.recommended, r.target, requested, 0);
  }

  /** A begin takes its claim. */
  lemma ClaimAlone(c: Course, v: World, now: int, p: Pid, requested: Scope, r: Recommendation)
    requires Reach(c, v, now) && v.At(p).Idle? && v.disk.snapshot.incident == v.disk.evidence.incident
    requires FindRecommendation(v.disk.snapshot, r.target, requested) == Some(r)
    requires TargetScope(v.disk.evidence.incident, r.target, r.scope) !in v.claims
    requires TargetScope(v.disk.evidence.incident, r.target, r.scope) in c.claims
    ensures var task := Task(v.disk.evidence.incident, r.target, r.scope);
            Reach(c, Place(v.(claims := v.claims[TargetScope(task.incident, task.target, task.scope) := p]), p,
                           InBegin(ReloadsSnapshot(task))), now)
  {
    hide FindRecommendation;
    hide Reach;
    var o, task := Quiet(now, ""), Task(v.disk.evidence.incident, r.target, r.scope);
    var v' := v.(claims := v.claims[TargetScope(task.incident, task.target, task.scope) := p]);
    WithinNow(c, v, now);
    Go(c, v, now, p, Start(BeginCall(r.target, requested)));
    Hop(c, v, now, p, InBegin(LoadsSnapshot(r.target, requested)), o, v,
        InBegin(LoadsEvidence(r.target, requested, v.disk.snapshot)));
    Hop(c, v, now, p, InBegin(LoadsEvidence(r.target, requested, v.disk.snapshot)), o, v, InBegin(TakesClaim(task)));
    Hop(c, v, now, p, InBegin(TakesClaim(task)), o, v', InBegin(ReloadsSnapshot(task)));
  }

  /** Every binding in the directory belongs to a completed session. */
  ghost predicate NothingPending(d: Disk)
  {
    && d.files.sessions.Keys == d.files.bindings.Keys
    && forall x :: x in d.files.bindings ==>
         && d.files.bindings[x].Good? && d.files.sessions[x].Good?
         && d.files.bindings[x].doc.sessionId == x && d.files.bindings[x].doc.incident == d.evidence.incident
         && Paired(x, d.files.sessions[x].doc, d.files.bindings[x].doc)
         && Completed(d.evidence, x)
  }

  /** The binding loop looks at one completed session and passes over it. */
  lemma SkipSteps(v: World, p: Pid, plan: Plan, todo: set<string>, x: string, now: int)
    requires NothingPending(v.disk) && plan.incident == v.disk.evidence.incident
    requires x in todo && todo <= v.disk.files.bindings.Keys
    ensures var done, m := CompletedIn(v.disk.evidence), Continue(Quiet(now, x));
            var q := InBegin(LoadsBinding(plan, done, todo, false));
            var q1 := InBegin(LoadsSession(plan, done, todo, false, x, v.disk.files.bindings[x].doc));
            && Step(Place(v, p, q), p, m) == Place(Place(v, p, q), p, q1)
            && Step(Place(v, p, q1), p, m) ==
               Place(Place(v, p, q1), p, InBegin(LoadsBinding(plan, done, todo - {x}, false)))
  {
  }

  lemma SkipOne(c: Course, v: World, now: int, p: Pid, plan: Plan, todo: set<string>, x: string)
    requires NothingPending(v.disk) && plan.incident == v.disk.evidence.incident
    requires x in todo && todo <= v.disk.files.bindings.Keys
    requires Reach(c, Place(v, p, InBegin(LoadsBinding(plan, CompletedIn(v.disk.evidence), todo, false))), now)
    ensures Reach(c, Place(v, p, InBegin(LoadsBinding(plan, CompletedIn(v.disk.evidence), todo - {x}, false))), now)
  {
    hide Reach;
    hide CompletedIn;
    hide Completed;
    var done, b := CompletedIn(v.disk.evidence), v.disk.files.bindings[x].doc;
    SkipSteps(v, p, plan, todo, x, now);
    hide NothingPending;
    hide Step;
    Hop(c, v, now, p, InBegin(LoadsBinding(plan, done, todo, false)), Quiet(now, x), v,
        InBegin(LoadsSession(plan, done, todo, false, x, b)));
    Hop(c, v, now, p, InBegin(LoadsSession(plan, done, todo, false, x, b)), Quiet(now, x), v,
        InBegin(LoadsBinding(plan, done, todo - {x}, false)));
  }

  /** The binding loop of a begin passes over completed sessions. */
  lemma {:induction false} SkipCompleted(c: Course, v: World, now: int, p: Pid, plan: Plan, todo: set<string>)
    requires NothingPending(v.disk) && plan.incident == v.disk.evidence.incident && todo <= v.disk.files.bindings.Keys
    requires Reach(c, Place(v, p, InBegin(LoadsBinding(plan, CompletedIn(v.disk.evidence), todo, false))), now)
    ensures Reach(c, Place(v, p, InBegin(CapturesBaseline(plan))), now)
    decreases todo
  {
    hide Reach;
    hide CompletedIn;
    hide NothingPending;
    if todo == {} {
      Hop(c, v, now, p, InBegin(LoadsBinding(plan, CompletedIn(v.disk.evidence), todo, false)), Quiet(now, ""), v,
          InBegin(CapturesBaseline(plan)));
    } else {
      hide Step;
      var x :| x in todo;
      SkipOne(c, v, now, p, plan, todo, x);
      SkipCompleted(c, v, now, p, plan, todo - {x});
    }
  }

  lemma NoOrphans(d: Disk)
    requires NothingPending(d)
    ensures OrphansIn(d.files) == map[]
  {
  }

  /** A begin under its claim makes its plan. */
  lemma PlanAlone(c: Course, v: World, now: int, p: Pid, task: Task, r: Recommendation)
    requires v.disk.snapshot.incident == v.disk.evidence.incident
    requires FindRecommendation(v.disk.snapshot, task.target, task.scope) == Some(r)
    requires Reach(c, Place(v, p, InBegin(ReloadsSnapshot(task))), now)
    ensures var plan := PlanFor(v, task, r);
            Reach(c, Place(v, p, InBegin(ListsFiles(plan, CompletedIn(v.disk.evidence)))), now)
  {
    hide FindRecommendation;
    hide Reach;
    hide CompletedIn;
    var o, plan := Quiet(now, ""), PlanFor(v, task, r);
    Hop(c, v, now, p, InBegin(ReloadsSnapshot(task)), o, v, InBegin(ReloadsEvidence(task, v.disk.snapshot)));
    Hop(c, v, now, p, InBegin(ReloadsEvidence(task, v.disk.snapshot)), o, v, InBegin(LoadsCompleted(plan)));
    Hop(c, v, now, p, InBegin(LoadsCompleted(plan)), o, v, InBegin(ListsFiles(plan, CompletedIn(v.disk.evidence))));
  }

  function PlanFor(v: World, task: Task, r: Recommendation): Plan
  {
    Plan(task, v.disk.evidence.incident, r.scope, r.probe, r.readOnly, v.disk.snapshot.revision)
  }

  /** With its plan made and nothing pending it gets as far as capturing its baseline. */
  lemma ScanAlone(c: Course, v: World, now: int, p: Pid, plan: Plan)
    requires NothingPending(v.disk) && plan.incident == v.disk.evidence.incident
    requires Reach(c, Place(v, p, InBegin(ListsFiles(plan, CompletedIn(v.disk.evidence)))), now)
    ensures Reach(c, Place(v, p, InBegin(CapturesBaseline(plan))), now)
  {
    hide Reach;
    hide CompletedIn;
    var o, done := Quiet(now, ""), CompletedIn(v.disk.evidence);
    NoOrphans(v.disk);
    hide OrphansIn;
    hide NothingPending;
    Hop(c, v, now, p, InBegin(ListsFiles(plan, done)), o, v, InBegin(ScansOrphans(plan, done, map[])));
    Hop(c, v, now, p, InBegin(ScansOrphans(plan, done, map[])), o, v, InBegin(ListsBindings(plan, done)));
    var todo := v.disk.files.bindings.Keys;
    Hop(c, v, now, p, InBegin(ListsBindings(plan, done)), o, v, InBegin(LoadsBinding(plan, done, todo, false)));
    SkipCompleted(c, v, now, p, plan, todo);
  }

  /** Both together: from its claim to its baseline. */
  lemma DiscoverAlone(c: Course, v: World, now: int, p: Pid, task: Task, r: Recommendation)
    requires NothingPending(v.disk) && v.disk.snapshot.incident == v.disk.evidence.incident
    requires FindRecommendation(v.disk.snapshot, task.target, task.scope) == Some(r)
    requires Reach(c, Place(v, p, InBegin(ReloadsSnapshot(task))), now)
    ensures Reach(c, Place(v, p, InBegin(CapturesBaseline(PlanFor(v, task, r)))), now)
  {
    hide FindRecommendation;
    hide NothingPending;
    hide Reach;
    hide CompletedIn;
    PlanAlone(c, v, now, p, task, r);
    ScanAlone(c, v, now, p, PlanFor(v, task, r));
  }

  /** The world after plan has written the session file of sid, but not yet its binding. */
  function HalfCreated(v: World, plan: Plan, sid: string, now: int): World
  {
    v.(used := v.used + {sid},
       disk := v.disk.(files := v.disk.files.(sessions := v.disk.files.sessions[sid := Good(Begun(plan, sid, now))])))
  }

  /** The world after plan has created session sid. */
  function Created(v: World, plan: Plan, sid: string, now: int): World
  {
    var h := HalfCreated(v, plan, sid, now);
    h.(disk := h.disk.(files := h.disk.files.(bindings := h.disk.files.bindings[sid := Good(Bound(plan, sid))])))
  }

  lemma GeneratesId(v: World, p: Pid, plan: Plan, sid: string, now: int)
    requires plan.readOnly && sid !in v.used
    ensures Step(Place(v, p, InBegin(CapturesBaseline(plan))), p, Continue(Quiet(now, "").(newId := sid))) ==
            Place(Place(v.(used := v.used + {sid}), p, InBegin(CapturesBaseline(plan))), p,
                  InBegin(ChecksUnused(plan, sid, now)))
  {
  }

  lemma FindsUnused(v: World, p: Pid, plan: Plan, sid: string, now: int, o: Outside)
    requires sid !in v.disk.files.sessions && sid !in v.disk.files.bindings && sid !in v.disk.files.abandoned
    ensures Step(Place(v, p, InBegin(ChecksUnused(plan, sid, now))), p, Continue(o)) ==
            Place(Place(v, p, InBegin(ChecksUnused(plan, sid, now))), p, InBegin(WritesSession(plan, sid, now)))
  {
  }

  lemma WritesOne(v: World, p: Pid, plan: Plan, sid: string, now: int, o: Outside)
    ensures Step(Place(v.(used := v.used + {sid}), p, InBegin(WritesSession(plan, sid, now))), p, Continue(o)) ==
            Place(Place(HalfCreated(v, plan, sid, now), p, InBegin(WritesSession(plan, sid, now))), p,
                  InBegin(WritesBinding(plan, sid, now)))
  {
  }

  lemma WritesOther(v: World, p: Pid, plan: Plan, sid: string, now: int, o: Outside)
    ensures Step(Place(HalfCreated(v, plan, sid, now), p, InBegin(WritesBinding(plan, sid, now))), p, Continue(o)) ==
            Place(Place(Created(v, plan, sid, now), p, InBegin(WritesBinding(plan, sid, now))), p,
                  InBegin(BeginReturns(plan, sid, now)))
  {
  }

  /** A begin with its plan made generates its session id and finds it unused. */
  lemma NameAlone(c: Course, v: World, now: int, p: Pid, plan: Plan, sid: string)
    requires plan.readOnly && sid !in v.used && sid == c.ids(plan.incident, plan.probe, plan.scope, now)
    requires sid !in v.disk.files.sessions && sid !in v.disk.files.bindings && sid !in v.disk.files.abandoned
    requires Reach(c, Place(v, p, InBegin(CapturesBaseline(plan))), now)
    ensures Reach(c, Place(v.(used := v.used + {sid}), p, InBegin(WritesSession(plan, sid, now))), now)
  {
    hide Reach;
    hide Step;
    var o, v1 := Quiet(now, "").(newId := sid), v.(used := v.used + {sid});
    GeneratesId(v, p, plan, sid, now);
    FindsUnused(v1, p, plan, sid, now, o);
    Hop(c, v, now, p, InBegin(CapturesBaseline(plan)), o, v1, InBegin(ChecksUnused(plan, sid, now)));
    Hop(c, v1, now, p, InBegin(ChecksUnused(plan, sid, now)), o, v1, InBegin(WritesSession(plan, sid, now)));
  }

  /** Then it writes both files. */
  lemma WriteAlone(c: Course, v: World, now: int, p: Pid, plan: Plan, sid: string)
    requires Reach(c, Place(v.(used := v.used + {sid}), p, InBegin(WritesSession(plan, sid, now))), now)
    ensures Reach(c, Place(Created(v, plan, sid, now), p, InBegin(BeginReturns(plan, sid, now))), now)
  {
    hide Reach;
    hide Step;
    var o, v1, v2 := Quiet(now, ""), v.(used := v.used + {sid}), HalfCreated(v, plan, sid, now);
    WritesOne(v, p, plan, sid, now, o);
    WritesOther(v, p, plan, sid, now, o);
    Hop(c, v1, now, p, InBegin(WritesSession(plan, sid, now)), o, v2, InBegin(WritesBinding(plan, sid, now)));
    Hop(c, v2, now, p, InBegin(WritesBinding(plan, sid, now)), o, Created(v, plan, sid, now),
        InBegin(BeginReturns(plan, sid, now)));
  }

  /** A begin with its plan made creates its session. */
  lemma CreateAlone(c: Course, v: World, now: int, p: Pid, plan: Plan, sid: string)
    requires plan.readOnly && sid !in v.used && sid == c.ids(plan.incident, plan.probe, plan.scope, now)
    requires sid !in v.disk.files.sessions && sid !in v.disk.files.bindings && sid !in v.disk.files.abandoned
    requires Reach(c, Place(v, p, InBegin(CapturesBaseline(plan))), now)
    ensures Reach(c, Place(Created(v, plan, sid, now), p, InBegin(BeginReturns(plan, sid, now))), now)
  {
    hide Reach;
    NameAlone(c, v, now, p, plan, sid);
    WriteAlone(c, v, now, p, plan, sid);
  }

  /** It returns and gives its claim back. */
  lemma ReturnAlone(c: Course, v: World, now: int, p: Pid, plan: Plan, sid: string)
    requires Reach(c, Place(v, p, InBegin(BeginReturns(plan, sid, now))), now)
    ensures var done := InRecord(RecordSnapshot(Journal.Begin, sid, Some(plan.incident),
                                                Began(plan.task.target, plan.scope, now, plan.revision)));
            Reach(c, Place(v.(claims := Drop(v.claims, p)), p, done), now)
  {
    hide Reach;
    var done := InRecord(RecordSnapshot(Journal.Begin, sid, Some(plan.incident),
                                        Began(plan.task.target, plan.scope, now, plan.revision)));
    PlaceTwice(v.(claims := Drop(v.claims, p)), p, InBegin(BeginReturns(plan, sid, now)), done);
    Hop(c, v, now, p, InBegin(BeginReturns(plan, sid, now)), Quiet(now, ""), v.(claims := Drop(v.claims, p)), done);
  }

  /** A finish of a bound session, up to taking its claims. */
  lemma FinishClaims(c: Course, v: World, now: int, p: Pid, plan: Plan, sid: string)
    requires Reach(c, v, now) && v.At(p).Idle?
    requires sid in v.disk.files.bindings && v.disk.files.bindings[sid] == Good(Bound(plan, sid))
    requires IncidentMutation(plan.incident) !in v.claims && SessionClaim(plan.incident, sid) !in v.claims
    ensures Reach(c, Place(v.(claims :=
                              v.claims[IncidentMutation(plan.incident) := p][SessionClaim(plan.incident, sid) := p]),
                           p, InFinish(FinishBinding(sid, plan.incident))), now)
  {
    hide Reach;
    var o, i := Quiet(now, ""), plan.incident;
    var v1 := v.(claims := v.claims[IncidentMutation(i) := p]);
    var v2 := v.(claims := v1.claims[SessionClaim(i, sid) := p]);
    WithinNow(c, v, now);
    Go(c, v, now, p, Start(FinishCall(sid)));
    Hop(c, v, now, p, InFinish(FindsIncident(sid)), o, v, InFinish(TakesIncident(sid, i)));
    Hop(c, v, now, p, InFinish(TakesIncident(sid, i)), o, v1, InFinish(TakesSession(sid, i)));
    Hop(c, v1, now, p, InFinish(TakesSession(sid, i)), o, v2, InFinish(FinishBinding(sid, i)));
  }

  /** Under its claims it reads everything and finds the session still to be completed. */
  lemma FinishReadsAlone(c: Course, v: World, now: int, p: Pid, plan: Plan, sid: string, startedAt: int)
    requires Reach(c, Place(v, p, InFinish(FinishBinding(sid, plan.incident))), now)
    requires plan.incident == v.disk.evidence.incident == v.disk.snapshot.incident
    requires sid in v.disk.files.bindings && v.disk.files.bindings[sid] == Good(Bound(plan, sid))
    requires sid in v.disk.files.sessions && v.disk.files.sessions[sid] == Good(Begun(plan, sid, startedAt))
    requires sid !in v.disk.files.abandoned && !Completed(v.disk.evidence, sid)
    ensures Reach(c, Place(v, p, InFinish(Evaluates(sid, plan.incident, Bound(plan, sid), Begun(plan, sid, startedAt),
                                                    v.disk.evidence, v.disk.snapshot))), now)
  {
    hide Reach;
    hide Ambiguous;
    hide Completed;
    var i, b, d := plan.incident, Bound(plan, sid), Begun(plan, sid, startedAt);
    var o := Quiet(now, "");
    Hop(c, v, now, p, InFinish(FinishBinding(sid, i)), o, v, InFinish(FinishSession(sid, i, b)));
    Hop(c, v, now, p, InFinish(FinishSession(sid, i, b)), o, v, InFinish(FinishEvidence(sid, i, b, d)));
    FinishDecidesAlone(c, v, now, p, i, b, d);
  }

  lemma FinishDecidesAlone(c: Course, v: World, now: int, p: Pid, i: string, b: BindingDoc, d: SessionDoc)
    requires Reach(c, Place(v, p, InFinish(FinishEvidence(d.sessionId, i, b, d))), now)
    requires i == d.incident == v.disk.evidence.incident == v.disk.snapshot.incident
    requires d.sessionId !in v.disk.files.abandoned && !Completed(v.disk.evidence, d.sessionId)
    ensures Reach(c, Place(v, p, InFinish(Evaluates(d.sessionId, i, b, d, v.disk.evidence, v.disk.snapshot))), now)
  {
    hide Reach;
    var sid := d.sessionId;
    assert !Ambiguous(v.disk.evidence, sid);
    hide Ambiguous;
    hide Completed;
    var e, t, o := v.disk.evidence, v.disk.snapshot, Quiet(now, "");
    Hop(c, v, now, p, InFinish(FinishEvidence(sid, i, b, d)), o, v, InFinish(FinishSnapshot(sid, i, b, d, e)));
    Hop(c, v, now, p, InFinish(FinishSnapshot(sid, i, b, d, e)), o, v, InFinish(FinishAbandonment(sid, i, b, d, e, t)));
    Hop(c, v, now, p, InFinish(FinishAbandonment(sid, i, b, d, e, t)), o, v, InFinish(Evaluates(sid, i, b, d, e, t)));
  }

  /** Then it writes its instance x and a snapshot with the recommendations that follow from the evidence. */
  lemma FinishWritesAlone(c: Course, v: World, now: int, p: Pid, i: string, b: BindingDoc, d: SessionDoc, x: Instance,
                          rs: seq<Recommendation>)
    requires Reach(c, Place(v, p, InFinish(Evaluates(d.sessionId, i, b, d, v.disk.evidence, v.disk.snapshot))), now)
    requires d.startedAt <= now < d.startedAt + v.maxAge && x.id !in v.disk.evidence.instances
    requires x.session == Some(d.sessionId) && x.scope == d.scope && x.observedAt == now
    requires x.expiresAt.Some? && now < x.expiresAt.value
    requires EvidenceText(x.id) && (c.checked ==> ConceptText(x.observation))
    requires Follows(rs, v.disk.evidence.(instances := v.disk.evidence.instances[x.id := x]), now)
    ensures var e := v.disk.evidence.(instances := v.disk.evidence.instances[x.id := x]);
            Reach(c, Place(v.(disk := v.disk.(evidence := e, snapshot := Rebuilt(v.disk.snapshot, e, rs))), p,
                           InFinish(FinishReturns(d.sessionId, i, b, x.id))), now)
  {
    hide Reach;
    hide Follows;
    var sid, e, t := d.sessionId, v.disk.evidence, v.disk.snapshot;
    var e' := e.(instances := e.instances[x.id := x]);
    var o := Quiet(now, "").(instance := x, recommended := rs);
    var v1 := v.(disk := v.disk.(evidence := e'));
    var v2 := v.(disk := v.disk.(evidence := e', snapshot := Rebuilt(t, e', rs)));
    Hop(c, v, now, p, InFinish(Evaluates(sid, i, b, d, e, t)), o, v, InFinish(WritesEvidence(sid, i, b, e, t, x)));
    Hop(c, v, now, p, InFinish(WritesEvidence(sid, i, b, e, t, x)), o, v1,
        InFinish(WritesSnapshot(sid, i, b, e', t, x.id)));
    Hop(c, v1, now, p, InFinish(WritesSnapshot(sid, i, b, e', t, x.id)), o, v2,
        InFinish(FinishReturns(sid, i, b, x.id)));
  }

  // ----- the run that breaks a slot claimed under both scopes

  /** Three sessions of one incident, one target and one probe, told apart by their start times. */
  const FIRST := Id(SESSION, '0')
  const SECOND := Id(SESSION, '1')
  const THIRD := Id(SESSION, '2')

  function IdAt(incident: string, probe: string, scope: Scope, startedAt: int): string
  {
    if startedAt == 0 then FIRST else if startedAt == 10 then SECOND else THIRD
  }

  lemma DistinctIds()
    ensures FIRST != SECOND && FIRST != THIRD && SECOND != THIRD && WellFormed(IdAt)
  {
    IdsDiffer(SESSION, '0', '1');
    IdsDiffer(SESSION, '0', '2');
    IdsDiffer(SESSION, '1', '2');
  }

  const FOUND := Id(EVIDENCE, 'c')

  /** An instance of the null scope that is about to expire, and one of the named scope that is about to be observed. */
  function Expiring(target: string): Instance { Instance("a", None, None, target, true, 0, Some(10), "") }

  function Upcoming(target: string, scope: Scope): Instance { Instance("b", None, scope, target, true, 10, None, "") }

  /** What the probe finds for the first session: nothing about another observation. */
  function Finding(slot: Slot): Instance
  {
    Instance(FOUND, Some(FIRST), None, Another(slot.target), false, 10, Some(20), "")
  }

  function Another(target: string): (r: string)
    ensures r != target && (ConceptText(target) ==> ConceptText(r))
  {
    if ConceptText(target) then OtherConcept(target)
    else
      assert |target + "_"| != |target|;
      target + "_"
  }

  /** Where the schema is enforced, evidence can name the slot's incident and target. */
  predicate Suits(checked: bool, slot: Slot) { checked ==> Describable(slot) }

  function Before(slot: Slot): Evidence
  {
    Evidence(slot.incident, map["a" := Expiring(slot.target), "b" := Upcoming(slot.target, slot.scope)])
  }

  function Afterwards(slot: Slot): Evidence
  {
    Before(slot).(instances := Before(slot).instances[FOUND := Finding(slot)])
  }

  const PROBE := "probe.check"

  function Advice(target: string, scope: Scope): Recommendation { Recommendation(scope, target, PROBE, true) }

  function NullTask(slot: Slot): Task { Task(slot.incident, slot.target, None) }

  function NullPlan(slot: Slot): Plan { Plan(NullTask(slot), slot.incident, None, PROBE, true, 0) }

  function Start0(slot: Slot): World
  {
    World(Disk(Files(map[], map[], map[], map[]), Before(slot),
               Snapshot(slot.incident, 0, Before(slot).instances.Keys, [Advice(slot.target, None)]), []), map[],
               map[], {}, 900)
  }

  /** The directory with the first session in it. */
  function WithFirst(slot: Slot): Files
  {
    Files(map[FIRST := Good(Begun(NullPlan(slot), FIRST, 0))], map[FIRST := Good(Bound(NullPlan(slot), FIRST))], map[],
          map[])
  }

  function CourseOf(checked: bool, slot: Slot, claims: iset<Claim>): Course
  {
    Course(checked, IdAt, Start0(slot), 0, claims)
  }

  lemma ProbeIsConcept()
    ensures ConceptText(PROBE)
  {
    assert PROBE[5] == '.' && Chomped(PROBE) == PROBE;
  }

  /** The recommendations follow from the evidence, at the start and at time 10. */
  lemma FollowsAtStart(checked: bool, slot: Slot)
    requires Suits(checked, slot)
    ensures Starts(checked, Start0(slot), 0)
  {
    ProbeIsConcept();
    hide ConceptText;
    var e, rs := Before(slot), [Advice(slot.target, None)];
    forall scope, target ensures Recommended(rs, scope, target) <==> Diagnosed(e, scope, target, 0) {
      if scope == None && target == slot.target {
        assert rs[0].scope == scope && Diagnoses(e.instances["a"], scope, target, 0);
      }
    }
    assert Follows(rs, e, 0);
    assert "a" in e.instances;
  }

  lemma FollowsLater(slot: Slot)
    ensures Follows([Advice(slot.target, slot.scope)], Afterwards(slot), 10)
  {
    var e, rs := Afterwards(slot), [Advice(slot.target, slot.scope)];
    ProbeIsConcept();
    ShortIds();
    hide ConceptText;
    hide Id;
    assert e.instances.Keys == {"a", "b", FOUND};
    forall scope, target ensures Recommended(rs, scope, target) <==> Diagnosed(e, scope, target, 10) {
      if scope == slot.scope && target == slot.target {
        assert rs[0].scope == scope && Diagnoses(e.instances["b"], scope, target, 10);
      }
    }
  }

  lemma ShortIds()
    ensures FOUND != "a" && FOUND != "b" && "a" != "b"
  {
    assert |FOUND| != |"a"| && "a"[0] != "b"[0];
  }

  /** Process 0 has begun the first session under the null scope, and process 1 claims the null scope anew. */
  ghost predicate Claimed(u: World, slot: Slot)
  {
    && u.disk == Start0(slot).disk.(files := WithFirst(slot)) && u.used == {FIRST} && u.maxAge == 900
    && u.claims == map[ClaimOn(slot, None) := 1]
    && 1 in u.procs && u.At(1) == InBegin(ReloadsSnapshot(NullTask(slot))) && u.At(2).Idle? && u.At(3).Idle?
  }

  /** Process 0 claims the null scope and creates the first session. */
  lemma ReachFirst(checked: bool, slot: Slot, claims: iset<Claim>) returns (u: World)
    requires Suits(checked, slot) && ClaimOn(slot, None) in claims
    ensures u == Start0(slot).(claims := map[ClaimOn(slot, None) := 0])
    ensures Reach(CourseOf(checked, slot, claims),
                  Place(Created(u, NullPlan(slot), FIRST, 0), 0, InBegin(BeginReturns(NullPlan(slot), FIRST, 0))), 0)
  {
    hide Reach;
    hide FindRecommendation;
    var c, w, r, plan := CourseOf(checked, slot, claims), Start0(slot), Advice(slot.target, None), NullPlan(slot);
    FollowsAtStart(checked, slot);
    DistinctIds();
    hide Id;
    Standing(c);
    FindsOnly(w.disk.snapshot, r, None);
    ClaimAlone(c, w, 0, 0, None, r);
    u := w.(claims := map[ClaimOn(slot, None) := 0]);
    assert u.claims == w.claims[ClaimOn(slot, None) := 0];
    DiscoverAlone(c, u, 0, 0, NullTask(slot), r);
    CreateAlone(c, u, 0, 0, plan, FIRST);
  }

  lemma ReachClaimed(checked: bool, slot: Slot, claims: iset<Claim>) returns (u: World)
    requires Suits(checked, slot) && ClaimOn(slot, None) in claims
    ensures Claimed(u, slot) && Reach(CourseOf(checked, slot, claims), u, 0)
  {
    hide Reach;
    hide FindRecommendation;
    hide Id;
    hide Suits;
    var c, r, plan := CourseOf(checked, slot, claims), Advice(slot.target, None), NullPlan(slot);
    var v := ReachFirst(checked, slot, claims);
    ReturnAlone(c, Created(v, plan, FIRST, 0), 0, 0, plan, FIRST);
    var done := InRecord(RecordSnapshot(Journal.Begin, FIRST, Some(slot.incident), Began(slot.target, None, 0, 0)));
    var v1 := Place(Created(v, plan, FIRST, 0).(claims := Drop(v.claims, 0)), 0, done);
    assert v1.claims == map[] && v1.disk.files == WithFirst(slot);
    FindsOnly(v1.disk.snapshot, r, None);
    ClaimAlone(c, v1, 0, 1, None, r);
    u := Place(v1.(claims := v1.claims[ClaimOn(slot, None) := 1]), 1, InBegin(ReloadsSnapshot(NullTask(slot))));
  }

  /** Process 3 has finished the first session at time 10; process 2 has claimed the scope now recommended. */
  ghost predicate Renamed(u: World, slot: Slot)
  {
    && u.disk.files == WithFirst(slot) && u.used == {FIRST} && u.disk.evidence == Afterwards(slot)
    && u.disk.snapshot.incident == slot.incident && u.disk.snapshot.recommended == [Advice(slot.target, slot.scope)]
    && 1 in u.procs && u.At(1) == InBegin(ReloadsSnapshot(NullTask(slot)))
    && 2 in u.procs && u.At(2) == InBegin(ReloadsSnapshot(Task(slot.incident, slot.target, slot.scope)))
  }

  lemma FirstUnfinished(slot: Slot)
    ensures !Completed(Before(slot), FIRST) && FOUND !in Before(slot).instances
  {
    ShortIds();
  }

  lemma ReachRenamed(checked: bool, slot: Slot, claims: iset<Claim>, u: World) returns (v: World)
    requires Suits(checked, slot) && slot.scope.Some? && ClaimOn(slot, slot.scope) in claims
    requires Claimed(u, slot) && Reach(CourseOf(checked, slot, claims), u, 0)
    ensures Renamed(v, slot) && Reach(CourseOf(checked, slot, claims), v, 10)
  {
    hide Reach;
    hide FindRecommendation;
    hide Completed;
    hide Id;
    hide OtherConcept;
    hide ConceptText;
    var c, plan, r := CourseOf(checked, slot, claims), NullPlan(slot), Advice(slot.target, slot.scope);
    Later(c, u, 0, 10);
    FinishClaims(c, u, 10, 3, plan, FIRST);
    var i := slot.incident;
    var v1 := u.(claims := u.claims[IncidentMutation(i) := 3][SessionClaim(i, FIRST) := 3]);
    FirstUnfinished(slot);
    FinishReadsAlone(c, v1, 10, 3, plan, FIRST, 0);
    FollowsLater(slot);
    FinishWritesAlone(c, v1, 10, 3, i, Bound(plan, FIRST), Begun(plan, FIRST, 0), Finding(slot), [r]);
    var e := Afterwards(slot);
    var v2 := Place(v1.(disk := v1.disk.(evidence := e, snapshot := Rebuilt(u.disk.snapshot, e, [r]))), 3,
                    InFinish(FinishReturns(FIRST, i, Bound(plan, FIRST), FOUND)));
    FindsOnly(v2.disk.snapshot, r, slot.scope);
    ClaimAlone(c, v2, 10, 2, slot.scope, r);
    var task := Task(i, slot.target, slot.scope);
    v := Place(v2.(claims := v2.claims[ClaimOn(slot, slot.scope) := 2]), 2, InBegin(ReloadsSnapshot(task)));
  }

  lemma FirstCompleted(d: Disk, slot: Slot)
    requires d.files == WithFirst(slot) && d.evidence == Afterwards(slot)
    ensures NothingPending(d)
  {
    assert d.evidence.instances[FOUND].session == Some(FIRST);
  }

  /** Both later begins have created their session in the slot. */
  ghost predicate Doubled(d: Disk, slot: Slot)
  {
    && d.evidence == Afterwards(slot) && d.files.abandoned == map[]
    && (forall x :: x in [SECOND, THIRD] ==> x in d.files.sessions && x in d.files.bindings && InSlot(d, x, slot))
  }

  /** Processes 1 and 2 have both found nothing pending and plan a session in the slot. */
  lemma ReachPlanned(checked: bool, slot: Slot, claims: iset<Claim>, u: World)
    requires Renamed(u, slot) && Reach(CourseOf(checked, slot, claims), u, 10)
    ensures var r := Advice(slot.target, slot.scope);
            var plan1 := PlanFor(u, NullTask(slot), r);
            var plan2 := PlanFor(u, Task(slot.incident, slot.target, slot.scope), r);
            Reach(CourseOf(checked, slot, claims),
                  Place(Place(u, 2, InBegin(CapturesBaseline(plan2))), 1, InBegin(CapturesBaseline(plan1))), 10)
  {
    hide Reach;
    hide FindRecommendation;
    hide NothingPending;
    hide Id;
    var c, r, task := CourseOf(checked, slot, claims), Advice(slot.target, slot.scope),
        Task(slot.incident, slot.target, slot.scope);
    FirstCompleted(u.disk, slot);
    FindsOnly(u.disk.snapshot, r, slot.scope);
    FindsOnly(u.disk.snapshot, r, None);
    PlaceSame(u, 2);
    DiscoverAlone(c, u, 10, 2, task, r);
    var u2 := Place(u, 2, InBegin(CapturesBaseline(PlanFor(u, task, r))));
    PlaceSame(u2, 1);
    DiscoverAlone(c, u2, 10, 1, NullTask(slot), r);
  }

  lemma ReachDoubled(checked: bool, slot: Slot, claims: iset<Claim>, u: World) returns (v: World)
    requires Renamed(u, slot) && Reach(CourseOf(checked, slot, claims), u, 10)
    ensures Doubled(v.disk, slot) && Reach(CourseOf(checked, slot, claims), v, 11)
  {
    hide Reach;
    var c, r, task := CourseOf(checked, slot, claims), Advice(slot.target, slot.scope),
        Task(slot.incident, slot.target, slot.scope);
    var plan1, plan2 := PlanFor(u, NullTask(slot), r), PlanFor(u, task, r);
    ReachPlanned(checked, slot, claims, u);
    var u2 := Place(u, 2, InBegin(CapturesBaseline(plan2)));
    DistinctIds();
    hide Id;
    CreateAlone(c, u2, 10, 1, plan1, SECOND);
    var u3 := Place(Created(u2, plan1, SECOND, 10), 1, InBegin(BeginReturns(plan1, SECOND, 10)));
    PlaceSame(u3, 2);
    Later(c, u3, 10, 11);
    CreateAlone(c, u3, 11, 2, plan2, THIRD);
    v := Place(Created(u3, plan2, THIRD, 11), 2, InBegin(BeginReturns(plan2, THIRD, 11)));
  }

  lemma TwoOpen(d: Disk, slot: Slot)
    requires Doubled(d, slot)
    ensures !Single(d, slot)
  {
    DistinctIds();
    var a, b := SECOND, THIRD;
    assert a in [SECOND, THIRD] && b in [SECOND, THIRD];
    assert !Completed(Afterwards(slot), a) && !Completed(Afterwards(slot), b);
    assert OpenIn(d, a, slot) && OpenIn(d, b, slot);
  }

  /** Where begins may claim both scopes, a genuine run reaches two open sessions in the slot. */
  lemma NullScopeGap(checked: bool, claims: iset<Claim>, slot: Slot)
    requires Suits(checked, slot)
    requires slot.scope.Some? && ClaimOn(slot, None) in claims && ClaimOn(slot, slot.scope) in claims
    ensures !StaysSingle(checked, claims, slot)
  {
    hide Single;
    hide Genuine;
    hide Takes;
    hide Doubled;
    var u := ReachClaimed(checked, slot, claims);
    u := ReachRenamed(checked, slot, claims, u);
    u := ReachDoubled(checked, slot, claims, u);
    TwoOpen(u.disk, slot);
    var s :| Leads(CourseOf(checked, slot, claims), s, u, 11);
    assert Run(Start0(slot), s)[|s|] == u;
  }

  lemma AlwaysIsGenuine(checked: bool, claims: iset<Claim>, slot: Slot)
    requires AlwaysSingle(claims, slot)
    ensures StaysSingle(checked, claims, slot)
  {
    hide Single;
    hide Takes;
    hide Initial;
  }

  /** An undescribable slot is single in genuine runs because nothing is ever bound in it. */
  lemma UndescribableSingle(claims: iset<Claim>, slot: Slot)
    requires !Describable(slot)
    ensures StaysSingle(true, claims, slot)
  {
    hide OpenIn;
    hide Takes;
    hide Genuine;
    forall ids, w, at, schedule, k |
      Genuine(true, ids, w, schedule, at) && Takes(w, schedule, claims) && 0 <= k <= |schedule|
      ensures Single(Run(w, schedule)[k].disk, slot)
    {
      NothingIndescribable(ids, w, schedule, at, k, slot);
    }
  }

  lemma UnmixedSingle(claims: iset<Claim>, slot: Slot)
    requires Unmixed(claims, slot)
    ensures AlwaysSingle(claims, slot)
  {
    hide Single;
    hide Initial;
    forall w, schedule, k | Initial(w) && Takes(w, schedule, claims) && 0 <= k <= |schedule|
      ensures Single(Run(w, schedule)[k].disk, slot)
    {
      TakesUnmixed(w, schedule, claims, slot);
      SlotSingle(w, schedule, k, slot);
    }
  }

  /**
    For every set of claims that begins may take, a slot has at most one open session over every
    run if and only if the set does not hold both the null scope and the slot's own. Over the
    genuine runs on checked evidence a slot that evidence cannot name is single as well.
   */
  lemma SlotSingleIff(claims: iset<Claim>, slot: Slot)
    ensures AlwaysSingle(claims, slot) <==> Unmixed(claims, slot)
    ensures StaysSingle(true, claims, slot) <==> Unmixed(claims, slot) || !Describable(slot)
  {
    hide StaysSingle;
    hide AlwaysSingle;
    hide Describable;
    if Unmixed(claims, slot) {
      UnmixedSingle(claims, slot);
      AlwaysIsGenuine(true, claims, slot);
    } else {
      NullScopeGap(false, claims, slot);
      if AlwaysSingle(claims, slot) { AlwaysIsGenuine(false, claims, slot); }
      if Describable(slot) { NullScopeGap(true, claims, slot); } else { UndescribableSingle(claims, slot); }
    }
  }

  lemma {:induction false} TakesUnmixed(w: World, schedule: seq<Action>, claims: iset<Claim>, slot: Slot)
    requires Takes(w, schedule, claims) && Unmixed(claims, slot)
    ensures NeverMixed(w, schedule, slot)
  {
    hide Run;
    forall i | 0 <= i < |schedule| ensures Unmixed(Claims(Run(w, schedule)[i]), slot) {
      assert Within(Run(w, schedule)[i], claims);
    }
  }
}
