# Verification model of the incident-diagnosis toolkit

A Dafny model of the parts of the repository that keep state on disk, search the
causal catalog, or draw conclusions from several sources, with proofs of what
they promise together. `dafny verify dfyconfig.toml` verifies the whole project.

## What is modelled

**Probe sessions on disk.** `ProbeProtocol` is a state machine: any number of
processes run begin, finish, abandon and reconcile over one session directory,
one evidence file, one snapshot file and one journal. A step is one file read,
one file write, or taking or releasing a claim; any interleaving is allowed and a
process may crash between any two steps, which drops its claims.
`ProbeInvariant`, `ProbeSteps` and `ProbeSafety` show what every step keeps,
`ProbeWrites` which file each writes; `ProbeTheorems` draws the safety theorems
over whole runs. `ProbeSlots`, `ProbeGenuine` and `ProbeNullScope` show exactly when
a target and scope have at most one open session, `ProbeRecovery` that an interrupted
begin stops later ones until it is reconciled and when what a marker discards may
still open, `ProbeJournal` that the journal file
written along the way is a verified chain. `ProbeOrigins` traces every document on disk
and every journal event back to the snapshots and outside inputs of the run, and
`ProbeOutcomes` reads off what this means: results are in time, sessions were advised,
the journal tells what is on disk. `ProbeFailures` says when exactly each step of an
operation fails. `Claims` is the lock-file layer itself,
`Reconciliation` the fail-closed scan and its markers, `Journal` the hash-chained
audit journal, and `SessionReaders` the two independent readers of the directory;
`ProbeReaders` shows what these readers find in any world the protocol reaches.

**Incident state commit.** `IncidentCommit` is the write-ahead journal over two
files, as a class whose operations may crash after any number of durable steps,
refined to one atomic update.

**Causal catalog.** `CausalGraph`, `CausalSearch`, `CausalProjection` and
`CausalProjectionLaws` are the two breadth-first searches; `CausalRanking` and
`CausalRankingLaws` the ten-part ordinal ranking; `ProbeContrast` and
`ProbeRanking` the pairwise contrast counting that ranks probes.

**Live evidence and diagnosis.** `EvidenceStore` is the last-observation-wins
store, `LiveDiagnosis` the time-aware cache, `DiagnosisWatcher` the poller on top.

**Wait-for graphs.** `BlockingChains` enumerates blocking chains; `AccessOrders`
finds opposing static access orders, `DeadlockConfirmation` ties them to an
observed mutual wait, and `DeadlockLaws` says when what it confirms is a deadlock.

`Prelude` holds the result types, `Keys` the source language's comparison of
numbers, strings and tuples with a stable sort, `SchemaText` the string patterns of the
JSON schemas, `SessionFiles` the documents of a session directory.

## Properties that hold only under a condition

- *One open session per target and scope.* For any set of target-scope claims that
  begins may take, a slot has at most one open session over every run if and only if
  its scope is null or the set does not hold both the null scope's claim and that
  scope's own (`SlotSingleIff`, `NullSlotSingle`). The reason is that re-reading under a
  claim is sure to keep the claimed scope exactly when that scope is not null
  (`RereadKeepsScopeIff`). The failing runs are genuine ones: evidence is never empty and
  has the form the loader accepts, session ids have their form and are a function of
  incident, probe, scope and start time, the clock does not run backwards, and every
  snapshot recommends what an active instance of the evidence shows. A null-scope
  instance expires and a named-scope one becomes active between the two reads. Over
  genuine runs the property also holds for a slot whose incident or target no evidence
  can name, because nothing is ever bound in it.
- *A discarded session may still open.* A reconciliation takes no claim that a begin
  holds. After the marker write some run opens the discarded session if and only if, at
  that write, it was open already (its binding was written after the scan) or a begin was
  about to bind it (`DiscardedOpensIff`).
- *Discarding a partial workflow does not always unblock discovery.* Where the
  history succeeds, pending discovery raises if and only if something is left to
  recover or a lone binding file does not load, even one that has been discarded
  (`DiscoveryRaisesIff`, `DiscardedBindingBlocks`). The probe tools themselves never
  leave such a file: in every world they reach, discovery raises exactly while a
  partial workflow is unreconciled (`ReachableReads`).
- *A confirmed deadlock is one.* For the findings of any facts, every confirmation,
  over all runtime and correlation documents that are accepted, is a mutual wait on each
  other's first resource if and only if every finding that is the only one between its
  two code paths, and whose paths, transactions and named resources have the forms a
  correlation has to use, names by id two facts that oppose each other (`DeadlocksIff`).
  Unique fact ids are enough (`ValidFactsDeadlock`). `RepeatedIdMisnames` gives documents
  with a repeated fact id that are accepted and confirmed although both participants take
  the resources in the same order; `CROSSING` is one of them. The shipped producer of the
  findings validates the ids first (scripts/d2_2_xray_projection.py:37 before :45), so such
  a document reaches the confirmation only where that producer is bypassed.

## Hypotheses

- SHA-256 digests are represented by what they digest, or by a function with an
  injectivity hypothesis where the digest is compared (`HeadPinsJournal`,
  `DuplicatesIff`).
- A generated session id is one never used or mentioned before; the source's
  digest leaves the target out (scripts/probe_executor_runtime.py:94-116).
- An atomic rename is one step. Timestamps are integers.
- The clock, the probe executor, the order in which a directory is listed, and the
  recommendations of a rebuilt snapshot are chosen by the environment in every step;
  only the genuine runs of `ProbeGenuine` restrict them. There every observed target
  of a partition with an active instance is recommended, and nothing else, and the
  catalog is taken to know every concept id as an observation.

## Model

| member | source | states |
|---|---|---|
| ProbeSafety.StepKeeps | scripts/mcp_probe_tools.py:496-780 | every step of any process, including a crash, keeps the protocol invariant: exact claim holders, well-formed files, exclusive outcomes, a truthful journal, and everything each process remembers from its reads |
| ProbeSafety.RunKeeps | scripts/mcp_probe_tools.py:496-780 | the invariant holds in every world of every run, for any number of processes and any interleaving |
| ProbeSafety.StepSound | scripts/mcp_probe_tools.py:526-780 | a step changes the disk only as far as the claims its process holds entitle it to, and never rewrites or removes a session, binding, abandonment marker, evidence instance or journal event |
| ProbeSafety.Stable | scripts/probe_filesystem_claim.py:119-174 | what a process knows from reads under its claims survives every step of every other process |
| ProbeTheorems.OutcomesExclude | scripts/mcp_probe_tools.py:605-780 | in every reachable world no session has both a completion and an abandonment, nor two completion instances, nor a finish and an abandon event, nor two events for one transition |
| ProbeTheorems.UniqueOutcome | scripts/mcp_probe_tools.py:403-417 | the first three of these for any world that satisfies the invariant |
| ProbeTheorems.NothingLost | scripts/mcp_probe_tools.py:633-708 | between any two worlds of a run, sessions, bindings, abandonment markers, evidence, snapshot mentions and journal only grow |
| ProbeTheorems.FinishReturnsSettled | scripts/mcp_probe_tools.py:656-708 | once a finish gets to return, in any run from an initial world, also one that repairs a crash between the two writes, the snapshot mentions the session's instance in every later world |
| ProbeTheorems.SettledFinishWritesNothing | scripts/mcp_probe_tools.py:656-672 | once settled, no step of a finish of that session changes the evidence or the snapshot, hence not the revision |
| ProbeTheorems.SettledKept | scripts/mcp_probe_tools.py:633-708 | being settled is never undone by any run |
| ProbeTheorems.FailedClaimsReleased | scripts/probe_filesystem_claim.py:197-212 | a finish that cannot take its second claim gives back the first and leaves every other holder and the disk as they were |
| ProbeOutcomes.ResultsInTime | scripts/mcp_probe_tools.py:674-683 | over every run from an initial world: evidence that the run added is about a session generated in the run whose file is on disk, in its scope, observed no sooner than that session started and less than the age limit later; evidence it started with is unchanged and about no session on disk |
| ProbeOutcomes.EvaluationOutcome | scripts/mcp_probe_tools.py:674-707 | over every run: a finish that evaluates its probe goes on to add exactly that one instance if and only if the executor succeeds, the clock is at or after the start on disk and before start plus age limit, and no evidence has the id; otherwise it ends with its claims released and no file changed |
| ProbeOutcomes.ScanOutcome | scripts/mcp_probe_tools.py:540-551 | over every run: a begin that scans stops if and only if it has come upon a partial workflow of which no marker is on disk; then it gives back its claim and writes nothing, otherwise it goes on to those left |
| ProbeOutcomes.DiscoveryOutcome | scripts/mcp_probe_tools.py:540-551 | over every run: while a begin examines the bindings, nothing the tools have written stops it but a clash, and then a session it did not find completed is bound to its target and scope; without a clash it goes on to capture the baseline |
| ProbeOutcomes.SessionsCaptured | scripts/mcp_probe_tools.py:552-576 | every session on disk has the fresh id, and the start time, of some step of the run at which the executor succeeded |
| ProbeOutcomes.BindingsAdvised | scripts/mcp_probe_tools.py:266-294 | every binding on disk was recommended by an earlier snapshot of its incident and revision: exactly one recommendation for its target and scope, of its probe, as read-only |
| ProbeOutcomes.JournalTells | scripts/mcp_probe_recovery_tool.py:192-277 | every event of the journal, in every reachable world, reports what the files and the evidence of its session say, under the incident of the evidence |
| ProbeOrigins.Origins | scripts/mcp_probe_tools.py:496-780 | in every world of a run each session, binding, abandonment, marker, evidence instance and journal event comes from a snapshot, an executor result or a clock reading of that run |
| ProbeOrigins.StepTraced | scripts/mcp_probe_tools.py:496-780 | one step of any process keeps all of these origins, for the disk and for what every process carries along |
| ProbeFailures.BeginFails | scripts/mcp_probe_tools.py:496-581 | over every run a begin fails, giving back its claims and writing nothing, if and only if not exactly one recommendation fits, the claim is held, a partial workflow has no marker, a session clashes, or the probe is not read-only or does not succeed |
| ProbeFailures.FinishFails | scripts/mcp_probe_tools.py:605-708 | over every run a finish fails if and only if the session is not bound, a claim is held, the session is abandoned, or it evaluates out of time, without success or with a used id |
| ProbeFailures.AbandonFails | scripts/mcp_probe_tools.py:710-780 | over every run an abandon fails if and only if the session is not bound, its claim is held, or it is completed |
| ProbeFailures.ReconcileFails | scripts/mcp_probe_recovery_tool.py:92-190 | over every run a reconciliation fails if and only if its claim is held, the session has neither anything partial nor a marker when it reconciles, something partial appears after its first scan, or the caller's fingerprint is not that of the session's file |
| ProbeFailures.RecordFails | scripts/mcp_probe_recovery_tool.py:192-277 | over every run reporting to the journal fails if and only if the journal's claim is held or the evidence names no incident; no report conflicts with an earlier one |
| ProbeTheorems.WritesOnce | scripts/mcp_probe_tools.py:574-770 | a step writes at most one of session directory, evidence, snapshot and journal; evidence gains one instance of a session that had none, the snapshot goes one revision on and mentions every instance, the journal gains one event |
| ProbeTheorems.RevisionCounts | scripts/mcp_probe_tools.py:660-701 | over every run the revision of the snapshot has risen by the number of its rewrites |
| ProbeNullScope.SlotSingleIff | scripts/mcp_probe_tools.py:496-603 | for every set of claims that begins may take and every slot: at most one unfinished, non-abandoned session in the slot over every run if and only if the set does not hold both the null scope and the scope of the slot; over every genuine run if and only if that or no evidence can name the incident and target of the slot |
| ProbeNullScope.NullScopeGap | scripts/mcp_probe_tools.py:535-539 | for any incident, target and named scope that evidence can name: where both claims may be taken, a genuine run from an initial world ends with two open sessions in the slot |
| ProbeGenuine.NothingIndescribable | scripts/runtime_evidence.py:69-129 | in a genuine run no session is ever open in a slot whose incident is empty or whose target is no concept id |
| ProbeGenuine.StepConcepts | scripts/mcp_probe_tools.py:238-294 | one step keeps every observation, recommended target and bound target a concept id |
| ProbeSlots.SlotSingle | scripts/mcp_probe_tools.py:496-603 | a slot has at most one open session in every world of a run in which its own claim and the null one are never held at once |
| ProbeSlots.NullSlotSingle | scripts/mcp_probe_tools.py:496-603 | the slot of the null scope has at most one open session in every world of every run |
| ProbeSlots.SlotStep | scripts/mcp_probe_tools.py:526-581 | one step keeps a slot that no two begins plan for at once single, including what the begin has established by the bindings examined so far |
| ProbeSlots.UndisputedSingle | scripts/mcp_probe_tools.py:526-581 | as long as no two begins plan for a slot at once, it has at most one open session |
| ProbeSlots.UnmixedUndisputed | scripts/mcp_probe_tools.py:266-294 | where the two claims are not held at once, no two begins plan for the slot |
| ProbeSlots.AlignedUndisputed | scripts/mcp_probe_tools.py:266-294 | where every begin works on the scope it claimed, no two begins plan for any slot |
| ProbeSlots.SingleAfterBinding | scripts/mcp_probe_tools.py:540-581 | binding a new session in a slot found clear leaves one open session in it |
| ProbeSlots.RereadKeepsScopeIff | scripts/mcp_probe_tools.py:273-278 | re-reading under a claim is sure to return the claimed scope if and only if that scope is not null |
| ProbeRecovery.CrashLeavesStuck | scripts/mcp_probe_tools.py:574-581 | a crash between the session write and the binding write leaves a partial workflow that blocks and that no process will complete, if and only if no marker discards that session file |
| ProbeRecovery.AbandonedKept | scripts/mcp_probe_tools.py:574-581 | any step but the marker write of a reconciliation of that session leaves such a partial workflow blocking and abandoned |
| ProbeRecovery.StuckBlocksBegins | scripts/probe_session_state.py:170-173 | over every run up to a reconciliation of that session, no begin that had not yet passed its scan gets past it |
| ProbeRecovery.CrashBlocksBegins | scripts/probe_session_state.py:170-173 | the same from the crash on, over every run from an initial world |
| ProbeRecovery.DiscardedOpensIff | scripts/probe_workflow_reconciliation.py:210-243 | over runs from an initial world: after the marker write for a session some run opens it if and only if, at that write, it was open already or a begin was about to bind it |
| ProbeRecovery.NeverOpens | scripts/mcp_probe_tools.py:574-581 | a used session id that is not open and that no begin owns is never open in any later world |
| ProbeJournal.FileStepKeeps | scripts/probe_workflow_journal.py:201-230 | one step of the protocol keeps the journal file equal to the reported entries and verified |
| ProbeJournal.JournalVerifies | scripts/mcp_probe_recovery_tool.py:192-277 | in every reachable world the hash-chained journal file written along the way verifies and holds exactly the entries reported, for any hash |
| ProbeProtocol.FindRecommendation | scripts/mcp_probe_tools.py:266-294 | a recommendation is returned if and only if exactly one of the snapshot is for the target and, when a scope is requested, of that scope; then it is that one |
| ProbeInvariant.KeepsClaims | scripts/probe_filesystem_claim.py:168-174 | a step that follows the claim rules, leaving the claimed section included, keeps the lock files saying exactly who holds what |
| Claims.LockDirectory.Acquire | scripts/probe_filesystem_claim.py:119-174 | a claim is taken exactly when the identity is not empty and the lock file is usable and free; otherwise nothing changes |
| Claims.LockDirectory.AcquireAll | scripts/probe_filesystem_claim.py:177-212 | either every requested claim is held, taken in path order, or the holders are as before; success if and only if the requests are well-formed, distinct and all free, and the error is that of the first path with a problem |
| Claims.LockDirectory.Release | scripts/probe_filesystem_claim.py:198-212 | unwinding gives back exactly the claims taken |
| Claims.Prepare | scripts/probe_filesystem_claim.py:189-196 | requests are prepared, in order, if and only if all purposes are valid and no lock file is asked for twice |
| Claims.DuplicatesIff | scripts/probe_filesystem_claim.py:42-53 | under an injective digest, lock files repeat exactly when requests do |
| Claims.TakeThenRelease | scripts/probe_filesystem_claim.py:177-212 | taking free claims and giving them back restores the holders |
| Claims.Exclusive | scripts/probe_filesystem_claim.py:145-159 | while one set of claims is held, another is granted if and only if it would have been and the two have no lock file in common |
| Reconciliation.Scan | scripts/probe_workflow_reconciliation.py:118-190 | the scan reports exactly the unresolved partial workflows, each once, in session order |
| Reconciliation.Inspect | scripts/probe_workflow_reconciliation.py:148-188 | what is reported for one session id, including the incident filter and the marker comparison |
| Reconciliation.ReportedIff | scripts/probe_workflow_reconciliation.py:118-190 | a session id is reported if and only if it has exactly one of the two files, that file names the incident asked for or none, and no marker is about this session, incident, kind of file and content |
| Reconciliation.IssueDescribes | scripts/probe_workflow_reconciliation.py:148-188 | a reported issue says which of the two files there is, what it holds and which incident it names |
| Reconciliation.SessionDirectory.Reconcile | scripts/probe_workflow_reconciliation.py:210-243 | writes one marker for an unresolved issue, repeats an existing one, raises otherwise, and touches no other file |
| Reconciliation.ReconcileRemovesOne | scripts/probe_workflow_reconciliation.py:210-243 | reconciling removes exactly that session's issue under every filter and leaves every other issue and file as it was |
| Reconciliation.ReconcileTwice | scripts/probe_workflow_reconciliation.py:218-225 | reconciling again changes nothing |
| Reconciliation.IssueReappears | scripts/probe_workflow_reconciliation.py:71-83 | after reconciliation an issue is reported again if and only if the orphan's content or kind has changed |
| SessionReaders.DiscoverPending | scripts/probe_session_state.py:149-250 | discovery raises exactly on a bad age limit, an unresolved partial workflow or a faulty binding, and otherwise lists exactly the unfinished, non-abandoned sessions of the incident, each with its start plus the age limit as expiry and expired from then on, in order of scope, target and id |
| SessionReaders.ReadPending | scripts/probe_session_state.py:176-241 | one binding file: raise, skip or list, with the listed fields those of its documents |
| SessionReaders.BuildHistory | scripts/probe_workflow_history.py:266-478 | the history raises exactly on its listed faults, and otherwise has one entry per session id with a status, in order of time and id, with a truthful summary |
| SessionReaders.ReadEntry | scripts/probe_workflow_history.py:307-468 | one session id: the fault, no entry, or the entry its one status calls for |
| SessionReaders.ReadPair | scripts/probe_workflow_history.py:397-468 | the same for a session with both files: active, expired, completed or abandoned |
| SessionReaders.ReadPartial | scripts/probe_workflow_history.py:333-395 | the same for a session with one file or none |
| SessionReaders.Populated | scripts/probe_workflow_history.py:236-263 | filling an entry: a session file that loads gives incident, probe, executor, scope and start; then a binding file that loads gives incident, target, probe, scope and revision; session id, status, expiry, terminal time, outcome and recovery are kept, and with no such file the whole entry is |
| SessionReaders.Summarize | scripts/probe_workflow_history.py:476-478 | the counting loop counts the entries of each status |
| SessionReaders.SummaryTotals | scripts/probe_workflow_history.py:476-478 | every entry has one status and the summary counts sum to the number of entries |
| SessionReaders.ReadersAgree | scripts/probe_workflow_history.py:397-468 | when both readers succeed on the same files, clock and age limit, the active and expired history entries are exactly the pending sessions, with equal target, scope, times, revision, probe and executor |
| SessionReaders.ExpiryShown | scripts/probe_session_state.py:119-140 | every listed pending session, and every active or expired entry, shows start plus age limit as its expiry, and is expired if and only if the query's time has reached it |
| SessionReaders.LaterStatus | scripts/probe_session_state.py:130-140 | with a later query time a session's status stays, except that an active one may become expired; never the reverse |
| SessionReaders.DiscoveryRaisesIff | scripts/probe_session_state.py:173-193 | where the history succeeds, discovery raises if and only if the history shows something to recover or some lone binding file does not load |
| SessionReaders.DiscardedBindingBlocks | scripts/probe_session_state.py:182-193 | an unreadable lone binding keeps discovery raising after it has been discarded and the scan is clean |
| ProbeReaders.ReachableReads | scripts/probe_session_state.py:165-250 | in every world the protocol reaches, the history raises at no session id, discovery raises if and only if some partial workflow is unreconciled, and the pending sessions are exactly those open on disk |
| ProbeReaders.ReaderStep | scripts/mcp_probe_tools.py:526-780 | every step keeps session and binding agreeing, abandonment markers valid and paired, and reconciliation markers named after their session |
| ProbeWrites.StepFiles | scripts/mcp_probe_tools.py:574-770 | a step writes no file of the directory or exactly one: a session, its binding, an abandonment or a reconciliation marker, with the documents the process had planned |
| ProbeReaders.PendingSlotsDiffer | scripts/probe_session_state.py:149-250 | discovery never lists two sessions for one target and scope whose own claim and the null scope's were never held at once |
| Journal.Verify | scripts/probe_workflow_journal.py:96-139 | verification succeeds if and only if every event carries its number, its predecessor's hash and its own hash, and returns the head hash |
| Journal.Decide | scripts/probe_workflow_journal.py:177-199 | an event is new exactly when no event has its kind and session, recorded exactly when the only one that has them is the same report, and a conflict otherwise |
| Journal.JournalFile.Append | scripts/probe_workflow_journal.py:151-230 | an append extends the journal by one signed event or leaves it, and raises exactly on a bad journal or a conflicting report |
| Journal.AppendedKeeps | scripts/probe_workflow_journal.py:151-230 | an append keeps the old journal as a prefix, verifiable, with one event per transition |
| Journal.RunKeeps | scripts/probe_workflow_journal.py:151-230 | the same for any run of appends |
| Journal.RepeatOrConflict | scripts/probe_workflow_journal.py:183-199 | a later attempt at a reported transition is a no-op if it is the same report and rejected otherwise |
| Journal.HeadPinsJournal | scripts/probe_workflow_journal.py:96-139 | under an injective hash, two verified journals with the same head hash are identical event for event |
| IncidentCommit.Prepare | scripts/incident_state_commit.py:100-118 | a commit is prepared exactly when both documents belong to the incident and the diagnosis has the next revision, and it then validates |
| IncidentCommit.IncidentState.Publish | scripts/incident_state_commit.py:121-144 | the files after a commit that crashes after any number of durable steps |
| IncidentCommit.IncidentState.Recover | scripts/incident_state_commit.py:147-172 | the files after a recovery that crashes after any number of durable steps |
| IncidentCommit.ChangesOnce | scripts/incident_state_commit.py:121-144 | the effective pair changes at the durable journal write and at no other step |
| IncidentCommit.ApplyRefines | scripts/incident_state_commit.py:121-172 | one operation, crashing anywhere, is an atomic update of the effective pair or none |
| IncidentCommit.RunRefines | scripts/incident_state_commit.py:121-172 | any run of commits, recoveries and whole updates, crashing anywhere, is a run of atomic updates |
| IncidentCommit.RecoveredFiles | scripts/incident_state_commit.py:147-172 | after any run, a completed recovery leaves the files as the atomic run has them and no journal |
| IncidentCommit.OldOrNew | scripts/incident_state_commit.py:121-172 | a commit that crashes anywhere leaves, after recoveries that may crash too, both files old or both new |
| IncidentCommit.AcceptedIffPrepared | scripts/incident_state_commit.py:60-97 | a recovery rolls a journal forward if and only if its commit is the one that preparing its documents yields, hashes included; otherwise it changes nothing |
| IncidentCommit.AlteredRejected | scripts/incident_state_commit.py:93-96 | documents altered after the commit was prepared are rejected by every recovery, if the hashes are injective |
| IncidentCommit.RevisionCounts | scripts/incident_state_commit.py:100-172 | when every commit is preceded by recovery, the revision counts the commits |
| CausalProjection.ShortestPath | scripts/causal_projection.py:63-100 | none if and only if the target is unreachable; otherwise a chain of real edges that is the first, by length and then by target, relation and id at every step, of all chains |
| CausalProjection.SortedAdjacency | scripts/causal_projection.py:45-60 | every node's edges, each once, in tie-break order |
| CausalProjection.Expand | scripts/causal_projection.py:76-81 | expanding a node discovers exactly its undiscovered neighbours and keeps the search invariant: recorded walks are first walks and the queue is in order |
| CausalProjection.TraceBack | scripts/causal_projection.py:86-100 | following the recorded steps back yields the walk recorded for the node |
| CausalProjection.ReverseSearch | scripts/causal_projection.py:108-123 | the search finds exactly the nodes within the depth bound, each with the length of its first, hence shortest, walk |
| CausalProjection.ReverseShortestPaths | scripts/causal_projection.py:103-144 | every node that reaches the target within the bound once, never the target, nearest first, each with a valid path that is the first one to the target |
| CausalSearch.Best | scripts/causal_projection.py:72-81 | any walk ends in a node recorded no later, or comes no earlier than the queue's head |
| CausalSearch.RecordedFirst | scripts/causal_projection.py:72-81 | the walk recorded for an expanded node is the first of all walks to it |
| CausalSearch.Discover | scripts/causal_projection.py:76-81 | recording an undiscovered neighbour keeps the search invariant |
| CausalGraph.WalkKeyInjective | scripts/causal_projection.py:45-51 | walks made of real edges are told apart by their tie-break keys |
| CausalGraph.WalkMeans | scripts/causal_projection.py:45-60 | a walk along the edges is a chain of edges from the first source to the last target; one against them runs from target to source |
| CausalGraph.FirstMeans | scripts/causal_projection.py:45-51 | the first walk is the shorter one and, of two of one length, at the first step in which they differ the one to the smaller node, then relation, then id |
| CausalGraph.WalkReversed | scripts/causal_projection.py:54-60 | a chain read backwards is a walk against the edges, so the reverse search sees the same chains |
| CausalProjectionLaws.OrderIndependent | scripts/causal_projection.py:45-51 | with distinct edge ids, the first walk, along the edges as in `shortest_path` or against them, does not depend on the order of the edge list |
| CausalProjectionLaws.CausesIgnoreOrder | scripts/causal_projection.py:103-144 | with distinct edge ids, `reverse_shortest_paths` lists the same antecedents with the same edges in the same order for any two orders of the edge list |
| CausalProjectionLaws.CauseShortest | scripts/causal_projection.py:103-144 | each antecedent's path has exactly the length `shortest_path` finds from it |
| CausalProjectionLaws.ListedIffReaches | scripts/causal_projection.py:103-144 | an antecedent is listed if and only if a chain of at most max_depth edges leads from it to the target |
| CausalProjectionLaws.CausesInOrder | scripts/causal_projection.py:125-144 | the antecedents are listed nearest first, and equally near ones by id |
| CausalProjectionLaws.ListedOnce | scripts/causal_projection.py:126-142 | no antecedent is listed twice |
| CausalProjectionLaws.CauseUnique | scripts/causal_projection.py:103-144 | an antecedent's entry does not depend on the depth bound |
| CausalProjectionLaws.BoundIsPrefix | scripts/causal_projection.py:113-129 | bounding the depth yields precisely the prefix of the deeper result with distance at most the bound |
| CausalRanking.PredictionMatches | scripts/causal_ranking.py:56-71 | the observed predictions, by strength |
| CausalRanking.FalsifierConflicts | scripts/causal_ranking.py:74-85 | the falsifiers that were observed absent |
| CausalRanking.CandidateFactors | scripts/causal_ranking.py:88-132 | the factors of a candidate: path matches and conflicts, predictions including the target, weakest strength and provenance, contributing edges, and how many of these are backed by an experiment or a source claim |
| CausalRanking.WeakestStrength | scripts/causal_ranking.py:106-107 | the least strength on the path, attained by some edge |
| CausalRanking.WeakestProvenance | scripts/causal_ranking.py:108-109 | the least provenance on the path, attained by some edge |
| CausalRanking.RankCauses | scripts/causal_ranking.py:182-213 | the hypotheses among the listed antecedents, each once, with their true factors, ranked 1 to n; of any two the earlier has fewer conflicts or, at a tie, more matched path observations, then more strong, moderate, weak predictions, the stronger weakest edge, the better provenance (experiment, claim, none), the shorter path, fewer contributing edges, the smaller id |
| CausalRanking.ListedByPrecedence | scripts/causal_ranking.py:168-180 | sorting by key puts candidates in that ten-step order |
| CausalRankingLaws.ObservedMonotone | scripts/causal_ranking.py:88-180 | adding an observed fact keeps every candidate above an untouched one that it beat |
| CausalRankingLaws.AbsentMonotone | scripts/causal_ranking.py:88-180 | adding an absent fact keeps every untouched candidate above one that it beat |
| CausalRankingLaws.PositionsFollowKeys | scripts/causal_ranking.py:211-213 | in a ranking, positions are in the order of the keys |
| CausalRankingLaws.NoOvertaking | scripts/causal_ranking.py:182-213 | between the rankings before and after an observation, no untouched candidate overtakes |
| CausalRankingLaws.NoDemotion | scripts/causal_ranking.py:182-213 | between the rankings before and after learning an absence, no untouched candidate falls below one it beat |
| CausalRankingLaws.DeeperKeepsOrder | scripts/causal_ranking.py:182-213 | raising the depth bound keeps every ranked candidate, with its factors, in the same relative order |
| CausalRankingLaws.RankingIgnoresOrder | scripts/causal_ranking.py:182-213 | with distinct edge ids, the ranking has the same candidates, ranks, factors and paths for any two orders of the edge list |
| ProbeContrast.BestPrediction | scripts/probe_ranking.py:43-57 | the first of the strongest predictions of the observation, none only if it is not predicted |
| ProbeContrast.BestIsFirstStrongest | scripts/probe_ranking.py:43-57 | the specification of that loop: an attained maximum of strength, the earliest of its kind |
| ProbeContrast.FirstFalsifier | scripts/probe_ranking.py:60-70 | the first falsifier on the observation, none only if there is none |
| ProbeContrast.CandidateEffect | scripts/probe_ranking.py:83-101 | what an observation would mean for one candidate: its rank, whether it is on the path, the prediction's strength and expectation, the falsifier's condition, and whether the probe tests it |
| ProbeContrast.SignatureCounts | scripts/probe_ranking.py:104-132 | two signatures differ exactly when the outcome counts at least one component, and then at most two |
| ProbeContrast.AnalyzeObservation | scripts/probe_ranking.py:135-179 | a pair is listed under an outcome if and only if its component count there is positive, each pair once, by the places of its two candidates; the total counts every pair of candidates and lies between the number of listings and twice that |
| ProbeContrast.FirstRowCounted | scripts/probe_ranking.py:361-389 | the components against the top candidate are part of the total |
| ProbeRanking.ValidateReferences | scripts/probe_ranking.py:272-292 | accepted if and only if every candidate is a known hypothesis, listed once, with known probes and observations |
| ProbeRanking.AnalyzeProbe | scripts/probe_ranking.py:349-357 | the analyses of exactly the unresolved observations that tell some pair apart |
| ProbeRanking.Accumulate | scripts/probe_ranking.py:361-389 | the accumulators are the unions and sums over all analyses |
| ProbeRanking.RankProbe | scripts/probe_ranking.py:339-431 | a probe is ranked if and only if some unresolved observation tells two candidates apart, and is described truly |
| ProbeRanking.RankProbes | scripts/probe_ranking.py:295-437 | raises exactly on bad references; otherwise the suggested, useful probes, ranked 1 to n, each with its capabilities, tools, alternatives and pairs in order, or the reason there are none; of any two the earlier has more two-sided alternatives to the top candidate or, at a tie, more components against it, more alternatives told from it, then the same three counts over all pairs, then the lower risk (read-only, low, state-changing, high), more tested hypotheses, the smaller id; the top candidate is the one of least rank |
| ProbeRanking.FactorsAgree | scripts/probe_ranking.py:361-389 | top two-sided alternatives are among the discriminated ones, every discriminated and two-sided alternative is paid for by a top component, and top components are at most the total |
| EvidenceStore.NewerIsRank | scripts/otlp_http_receiver.py:125-130 | being newer is being greater by time and then id |
| EvidenceStore.Document | scripts/otlp_http_receiver.py:98-111 | the document lists the stored instances, each once, in id order |
| EvidenceStore.Store.Ingest | scripts/otlp_http_receiver.py:132-177 | a batch is absorbed whole or, if it raises, changes nothing; counters add up, inserted equals the stored size, and the snapshot file is the map's document |
| EvidenceStore.Counts | scripts/otlp_http_receiver.py:140-161 | every instance of a batch is counted once, and only inserted or replaced ones change the map |
| EvidenceStore.Counted | scripts/otlp_http_receiver.py:140-161 | each arrival counts as inserted if its slot is new, as duplicate if it is what the slot holds, as replaced if it was observed later, or at the same time with the greater id, than all of its slot, and as out of order otherwise |
| EvidenceStore.RaisesIff | scripts/otlp_http_receiver.py:148-153 | absorbing raises if and only if some arrival finds its slot holding an instance with its id and other content |
| EvidenceStore.Joined | scripts/otlp_http_receiver.py:132-177 | splitting what is received into batches does not matter |
| EvidenceStore.StoresLatest | scripts/otlp_http_receiver.py:125-161 | with consistent ids, the stored instance of every slot is the maximum by time and id of everything received for it |
| EvidenceStore.ArrivalIrrelevant | scripts/otlp_http_receiver.py:125-161 | the stored map depends only on the set of instances received |
| EvidenceStore.ReplayIrrelevant | scripts/otlp_http_receiver.py:125-161 | replaying anything already received changes nothing |
| EvidenceStore.DocumentUnique | scripts/otlp_http_receiver.py:98-111 | the document of an acceptable map is unique, so the map determines the file |
| LiveDiagnosis.Partitions | scripts/live_diagnosis.py:69-96 | the instances grouped by partition key, the keys sorted, a later instance replacing one with the same id |
| LiveDiagnosis.FindTransition | scripts/live_diagnosis.py:99-123 | the loop computes the recorded next transition |
| LiveDiagnosis.NextIsEarliest | scripts/live_diagnosis.py:99-123 | the recorded transition is the earliest time at which some instance starts or stops being active, and none is recorded only if there is none |
| LiveDiagnosis.QuietUntil | scripts/live_diagnosis.py:99-123 | no instance changes between future, active and stale strictly before the next transition |
| LiveDiagnosis.Build | scripts/live_diagnosis.py:126-215 | one partition per scope that occurs, in key order, over the latest instance of each id: active, stale and future by its times, an observation observed (absent) if and only if some active instance reports it so; raises if and only if some partition has one observation in both |
| LiveDiagnosis.SnapshotMeans | scripts/live_diagnosis.py:126-215 | the same of the snapshot that a document has at a time, in terms of its instances' own fields |
| LiveDiagnosis.FreshAgrees | scripts/live_diagnosis.py:302-335 | between a build and its next transition, building afresh succeeds alike and gives equal partitions |
| LiveDiagnosis.Engine.Refresh | scripts/live_diagnosis.py:277-300 | a refresh replaces the cache and its revision together, or raises and changes nothing |
| LiveDiagnosis.Engine.Current | scripts/live_diagnosis.py:302-335 | whatever is answered has the partitions of a fresh build now; the cache answers only for the same revision, no clock regression and no due transition |
| DiagnosisWatcher.Watcher.Tick | scripts/live_diagnosis_watch.py:71-99 | a tick that returns with evidence leaves the engine cached at the revision of the watcher with the partitions a fresh build would show; the revision rises exactly when the fingerprint differs, and the reported state says which happened |
| DiagnosisWatcher.Watch | scripts/live_diagnosis_watch.py:71-99 | over any run of ticks, wherever fetches and refreshes raise, the revision has risen by the number of document changes and the last answer shows what a fresh build of the last document would |
| DiagnosisWatcher.SameDocument | scripts/live_diagnosis_watch.py:71-99 | polls that fetch the known document, or none, never raise the revision |
| BlockingChains.BuildGraph | scripts/postgresql_health_provider.py:50-53 | the wait graph of the activity rows, a later row of a pid replacing an earlier one |
| BlockingChains.Collector.Walk | scripts/postgresql_health_provider.py:56-65 | the recursion terminates on any graph and adds every ended continuation of the path and nothing else |
| BlockingChains.RepeatEnds | scripts/postgresql_health_provider.py:56-65 | a collected walk repeats a pid at most at its end |
| BlockingChains.KeepMaximal | scripts/postgresql_health_provider.py:69-74 | the chains kept are exactly those no other chain properly ends in, and every chain is a suffix of a kept one |
| BlockingChains.Chains | scripts/postgresql_health_provider.py:49-74 | the results, each once and strictly in order, are exactly the collected chains that are no proper suffix of another, and every collected chain is a suffix of a result |
| BlockingChains.CanEnd | scripts/postgresql_health_provider.py:56-65 | every partial walk can be continued to an ended one |
| BlockingChains.BlockedAppears | scripts/postgresql_health_provider.py:49-74 | every blocked pid appears in some result |
| BlockingChains.ResultShape | scripts/postgresql_health_provider.py:49-74 | in a result every pid but the last is blocked; either all pids differ and the last is unblocked, or the last repeats one earlier pid and nothing else repeats |
| BlockingChains.CyclesReported | scripts/postgresql_health_provider.py:56-74 | a pid is in a wait cycle if and only if some result ends in a circle that the pid is on |
| AccessOrders.ValidateSemantics | scripts/concrete_system_facts.py:50-100 | accepted if and only if ids are unique, references resolve, inferred items name a rule and access orders connect the right kinds |
| AccessOrders.UniqueByCount | scripts/concrete_system_facts.py:54-60 | comparing the number of ids with the number of distinct ids detects exactly the repeated ones |
| AccessOrders.OpposingAccessOrders | scripts/concrete_system_facts.py:103-154 | each resource pair and code-path pair with opposing orders is reported exactly once, and nothing else |
| AccessOrders.KeysIgnoreOrder | scripts/concrete_system_facts.py:103-154 | the reported keys, and their number, do not depend on the order of the facts |
| AccessOrders.ReportedIff | scripts/concrete_system_facts.py:103-154 | there is a finding about two resources and two code paths if and only if two facts take the resources in opposite order on these paths, and then exactly one |
| AccessOrders.FindingShows | scripts/concrete_system_facts.py:118-152 | a finding shows the ids, paths, transactions and resources of the two facts it rests on, the smaller id on the left |
| AccessOrders.FindingsWellKinded | scripts/concrete_system_facts.py:83-100 | in a valid document a finding names data resources, transactions and two different code paths |
| DeadlockConfirmation.RuntimeBindings | scripts/d2_2_causal_confirmation.py:53-68 | bound if and only if every participant is exactly the execution it names and no code symbol repeats |
| DeadlockConfirmation.ValidateRuntime | scripts/otel_concrete_runtime_facts.py:398-435 | accepted if and only if names have the forms of the schema, execution and interaction ids are unique, and overlaps and interactions agree with the executions they name |
| DeadlockConfirmation.MatchingPrecondition | scripts/d2_2_causal_confirmation.py:71-99 | matched if and only if exactly one precondition has the correlated code paths and both its sides match |
| DeadlockConfirmation.VerifyWaitCycle | scripts/d2_2_causal_confirmation.py:102-129 | accepted if and only if there are two backends, every edge is between them on its waiter's second resource, and each waits for the other |
| DeadlockConfirmation.VerifyDeadlockEvent | scripts/d2_2_causal_confirmation.py:132-147 | accepted if and only if the event was observed with 40P01 and the first participant on the victim's backend, also where participants share one, is the execution it names, aborted with 40P01; that participant is returned |
| DeadlockConfirmation.Confirm | scripts/d2_2_causal_confirmation.py:150-171 | a confirmation is returned if and only if one exists, for runtime and correlation documents that are accepted |
| DeadlockLaws.DeadlocksIff | scripts/d2_2_causal_confirmation.py:53-171 | for the findings of any facts: every confirmation, over all accepted documents, is a mutual wait on the first resource of the other with the victim one of the two, if and only if every expressible finding that is the only one between its code paths names opposing facts |
| DeadlockLaws.ConfirmedWhen | scripts/d2_2_causal_confirmation.py:71-147 | one confirmation is such a deadlock if and only if the facts its precondition names oppose each other |
| DeadlockLaws.Confirmable | scripts/d2_2_causal_confirmation.py:53-171 | every finding that is the only one between its code paths and whose names have the forms of the correlation schema is confirmed by some accepted documents |
| DeadlockLaws.ConfirmedExpressible | schema/concrete-database-deadlock-evidence.schema.json:97-145 | whatever is confirmed has code paths, transactions and resources of the forms of the correlation schema; a job path never is |
| DeadlockLaws.ValidFactsDeadlock | scripts/d2_2_causal_confirmation.py:150-171 | for valid facts every confirmation is such a deadlock |
| DeadlockLaws.RepeatedIdMisnames | scripts/d2_2_causal_confirmation.py:76-94 | documents with a repeated fact id: the one finding names a fact other than the one it was found in, and accepted documents confirm it although both participants take the resources in the same order |

## Left out

- HTTP and MCP servers, the OTLP wire format, command lines, rendering and report text: transport and presentation.
- JSON-schema validation and YAML or JSON loading, except the string patterns and the lengths that `DeadlockConfirmation` and `ProbeGenuine` need: documents are datatypes; a file that does not load is `Broken`.
- Failing file reads and writes: an operation that cannot read or write a file stops as at a crash.
- Telemetry adapters, PostgreSQL queries, live labs and subprocesses: foreign calls.
- Lock file metadata, fsync and the in-process lock: a claim is exclusive, non-blocking, and released on exit or crash.
- Instrument routing, execution-set selection, the agent plan and the autonomous loop.
- Other writers of the evidence file than the probe tools, and a session directory that is not a directory or holds files with malformed names.
- Session directories that are not empty when a run starts, in particular with files of other incidents: the checks of begin, finish and abandon that only such files trip are in the model, and `ProbeFailures` shows that a run never trips them.
- ProbeProtocol.FindRecommendation: recommendation contents are reduced to scope, target, probe and whether the probe is read-only; scopes are carried in normalised form.
- ProbeRecovery.StuckBlocksBegins: concerns begins of the incident the orphan is relevant to; scans of one session id by a reconciliation are one step, since sessions and bindings are never rewritten.
- ProbeRanking.RankProbes: reasons and the effect texts shown per outcome are not part of a probe.
- CausalRanking.RankCauses: reasons and path views are not part of a candidate.
- CausalProjection.ShortestPath: an edge is identified by its position in the list; the sort is stable, so the position decides among edges with the same id.
- LiveDiagnosis.Build: the diagnosis computed for a partition is a parameter of the catalog; capabilities, execution sets and the optional scope filter are not modelled.
- DiagnosisWatcher.Watcher.Tick: the fingerprint stands for the document itself.
- SessionReaders.BuildHistory: observation, state and measurement of an outcome are one opaque content; an entry's file list and the constant resolution texts are left out.
- Claims.LockDirectory.AcquireAll: nested values of an identity object are carried in canonical form.
- DeadlockConfirmation.Confirm: document kinds and catalog codes are fixed by the types; times, durations, application names and wait event names of the input documents are left out, and so are the wait edges and limitations of the output document.
