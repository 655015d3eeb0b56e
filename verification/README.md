# Mac Audit Agent: a verified model of its core logic

The project models the parts of the Mac Audit Agent whose guarantees no single
function shows, and proves those guarantees for every input, every run and
every intermediate state. Each module models one component:

- `EvidenceWalk`: the bounded breadth-first walk over the evidence graph,
  against shortest undirected distance and the one-hop query.
- `EvidenceBuilder`: the builder that merges artifact lists into one graph. Its
  methods update node and edge maps in place; a ghost list of the calls made so
  far ties them to functions about which the properties are proved.
- `DatabaseRecovery`: the SQLite recovery procedure over a file map in which
  every step may fail. The ghost `moments` hold every state the disk went
  through, half-written files included, and each image carries the generation
  it belongs to. A property of every moment is a property of every crash.
- `EmergencyResponse`: the incident manager and its persisted state, over whole
  runs mixed with changes others make to the evidence files.
- `JsonText` and `GovernanceAudit`: the fail-closed decision, the hash-chained
  audit log and its verifier, with the JSON text (RFC 8259, sections 4 and 7)
  that is hashed.
- `SecurityForecast`, `ForecastOrder` and `ForecastGrouping`: the Apple exposure
  fold over advisories, the overall level, how far a card depends on the order
  of its advisories, and the grouping of cards for display.
- `Rounding`, `PostureScore` and `ResilienceScore`: Python's `round` (ties to
  even, section 4.3.1 of IEEE 754-2008) on exact rationals, and the two scores
  built on it.
- `BaselineDrift`: the categorised, suppressible diff.
- `TimesheetPeriods` and `TimesheetTimer`: period bounds over the Gregorian
  calendar, and the timer.

`Common` holds result types and the string functions that several modules use.
`dafny verify dfyconfig.toml` checks the whole project.

Calls into the outside world (launchd, SQLite, adapters, the clock, fresh ids,
SHA-256, version comparison, timestamp parsing) are inputs or arbitrary
answers. SHA-256 is only taken to produce 64 hexadecimal digits: no injective
function does, so the chain theorem exhibits two colliding texts instead of
assuming that there are none.

## What the proofs show about the code

Some expectations fail; each is proved as such, with the condition under which
it holds.

- A second successful `restrict_network` overwrites the stored previous state.
  `exit` then restores the network as it was before containment exactly when
  nothing was restricted before or the adapter reported that same state again
  (`RestrictionOverwritesPrevious`). A caller who never restricts while a
  network state is stored always gets the original back
  (`GuardedRunsRestoreTheOriginal`).
- `add_note` on a drift writes the row that `mark_expected` writes. A note thus
  changes the next comparison exactly when there is a database and its id is
  that of a reported drift, which it then suppresses (`MarkAndCompareAgain`).
- A diff patches back exactly when null values line up; a key that comes to
  hold null is not distinguished from a missing one (`PatchesBackIff`).
- The audit chain does not notice missing last rows or a changed `event_id`
  (`TailAndEventIdsAreUnprotected`).
- The impact recorded for a posture change need not be the drop of the score.
  For any valid definitions the two differ by at most one point. With the
  shipped signals, everything else healthy, they are equal exactly for all but
  the firewall and system integrity protection, which are recorded as -5 and
  cost 6 (`ShippedImpactIsDropIff`).
- A change of one signal is reported exactly when neither of its two statuses is
  unknown and something of it changed (`TurnIsReportedIff`). A signal lost from
  sight costs as much as a concern without a report (`LostEvidenceIsSilent`),
  and a regression through such a gap is never reported
  (`RegressionThroughAGapIsSilent`).
- Losing sight of a concern raises the trust decision exactly when it is the only
  critical one, the coverage left is 60 or more and the score is 70 or more
  (`LosingSightRaisesTrustIff`); with the shipped signals, everything else
  healthy, that is so for every critical one (`UnseenConcernRaisesTrust`).
- The first advisory of a card fixes its applicability. A card is critical
  exactly when that one was confirmed and some advisory of the card is known
  exploited and has a fixed version (`FirstAdvisoryDecidesCritical`,
  `CardIsCriticalIff`); so a confirmed exploited advisory does not make its
  card critical when it comes second (`LateConfirmationIsNotCritical`).
- The order of the catalog decides a card's level in two mixtures of its
  advisories and in no others (`CatalogOrderIff`): some are confirmed, others
  not, and one is known exploited with a fixed version; or none is known
  exploited, severity raises the card, and critical severity occurs among those
  of high exploit probability but not among the plain ones, of which there are
  some (`SameAdvisoriesOtherLevel`).
- The text tested for a detected macOS has the build's parentheses and is never
  empty. A product of unknown version awaits review exactly when it is not
  macOS (`UnknownVersionAwaitsReviewIff`); an unknown macOS counts as confirmed
  for an exploited CVE (`UnknownMacOSIsConfirmed`).
- Asking for advisories of Apple's other devices shows none of them: the next
  test hides them as an unsupported family, so the option changes one counter
  and no card (`EcosystemOptionShowsNothing`).
- Grouping extends the list objects of the first card of each group. Grouping
  the same card objects twice lists the other cards' CVEs twice (`GroupTwice`);
  a group's CVEs stay as they are exactly when those cards have none
  (`RepeatsNothingIff`).
- The evidence copy of a recovery source is overwritten when the source is named
  like the receipt, and when it is named like the dump and is rebuilt. After the
  copies, the evidence is complete in every moment in which neither has
  happened, and in no other; the original image is then kept exactly while it
  is still at the source path. After a recovery that returned, the evidence is
  complete exactly if the name is not the receipt's and, for the dump's name,
  the image was not rebuilt (`Recover`).
- Two keys of more than 240 characters that differ only after the 240th share a
  node of the evidence graph (`NodeIdsAgreeIff`).
- A receipt names an image that passed its check only if the restarted service
  did not write to it before the digest was taken (`Announce`).
- An overall resilience score of 100 means that every control passed exactly
  when every control is worth more than half a point
  (`PerfectIsCompleteIff`); the shipped table meets that.
- A timer started with a timestamp that cannot be parsed can never be stopped
  and blocks every later start (`UnreadableStartBlocks`).
- The builder's guard against self-loops never fires, because every edge joins
  nodes of two types (`NoEdgeDangles`).

## Model

| member | source | states |
|---|---|---|
| EvidenceWalk.EvidenceChain | mac_audit_agent/evidence_graph.py:65-85 | the queue loop terminates on every graph and depth and returns the chain of the specified walk |
| EvidenceWalk.ChainIsBreadthFirst | mac_audit_agent/evidence_graph.py:65-85 | the ids listed are exactly those at shortest undirected distance 1 to max_depth, each once; depths never decrease; each entry is a real edge in its stored direction joining layer d-1 to layer d, with the other end's label |
| EvidenceWalk.VisitDepthIsDistance | mac_audit_agent/evidence_graph.py:70-84 | the depth queued with an id is its shortest undirected distance |
| EvidenceWalk.DepthOnlyTruncates | mac_audit_agent/evidence_graph.py:71-73 | the chain for depth d is a prefix of the chain for d+1 |
| EvidenceWalk.FirstLayerIsRelated | mac_audit_agent/evidence_graph.py:57-63 | the depth-1 ids that are nodes are exactly the related nodes other than the start |
| EvidenceWalk.NodesWithinMembers | mac_audit_agent/evidence_graph.py:63 | the one-hop query returns exactly the graph's nodes with a related id |
| EvidenceBuilder.TextDetermines | mac_audit_agent/evidence_graph.py:275-277 | ids of different types or different cleaned keys never have the same text |
| EvidenceBuilder.NodeIdsAgreeIff | mac_audit_agent/evidence_graph.py:275-277 | two keys of a type share a node if and only if, blanks around them removed and newlines read as spaces, they agree on the first 240 characters |
| EvidenceBuilder.CleanKeyIsKept | mac_audit_agent/evidence_graph.py:275-277 | the id text of a key of at most 240 characters without newlines or outer blanks is the type, a colon and the key |
| EvidenceBuilder.LabelIsFirstKnown | mac_audit_agent/evidence_graph.py:279-288 | an endpoint is named by the first known of remote address, local address, host and port, protocol and port, and by nothing when none is known |
| EvidenceBuilder.GraphBuilder.AddNode | mac_audit_agent/evidence_graph.py:107-116 | a new id is stored, a known one keeps its label and has its evidence updated and its summary joined |
| EvidenceBuilder.GraphBuilder.AddEdge | mac_audit_agent/evidence_graph.py:118-122 | the first edge of each (source, target, type) is kept and self-loops are refused |
| EvidenceBuilder.GraphBuilder.AddProcess | mac_audit_agent/evidence_graph.py:140-158 | a process adds its node, owner and executable with their edges, and enters the pid and path tables |
| EvidenceBuilder.GraphBuilder.AddLaunch | mac_audit_agent/evidence_graph.py:170-181 | a launch item adds its node, its target file and, when that path runs, the edge to the process |
| EvidenceBuilder.GraphBuilder.AddPort | mac_audit_agent/evidence_graph.py:183-191 | an endpoint with a label is added and tied to the process with its pid |
| EvidenceBuilder.GraphBuilder.AddEvent | mac_audit_agent/evidence_graph.py:205-211 | an event with a key adds its node and the links of `_link_event`, in that order |
| EvidenceBuilder.GraphBuilder.LinkRelated | mac_audit_agent/evidence_graph.py:225-273 | the links to process, file, user and endpoint that an event or a finding names |
| EvidenceBuilder.GraphBuilder.AddFinding | mac_audit_agent/evidence_graph.py:213-251 | a finding with a key adds its node, the links of `_link_finding` and one link for every process path its text mentions |
| EvidenceBuilder.GraphBuilder.Build | mac_audit_agent/evidence_graph.py:103-222 | the nodes and edges left by a build are those of the specified sequence of calls, with first labels and first rules kept |
| EvidenceBuilder.CallsAreDeclared | mac_audit_agent/evidence_graph.py:138-273 | the calls of a build are exactly the nodes and edges that some artifact declares: its own node, the nodes it mentions, and the edges to the process with its pid and to the last process at its path |
| EvidenceBuilder.GraphIsWhatIsDeclared | mac_audit_agent/evidence_graph.py:103-273 | a node or an edge is in the graph of a build if and only if some artifact declares it, under a declared label or rule |
| EvidenceBuilder.PidsHaveTheirOwnNodes | mac_audit_agent/evidence_graph.py:140-147 | processes with clean pids have nodes in the graph, and their id texts are the same if and only if their pids are |
| EvidenceBuilder.EverySummaryIsKept | mac_audit_agent/evidence_graph.py:112-116 | every summary given for a node is contained in the summary it ends up with |
| EvidenceBuilder.GraphIsWhatWasCalled | mac_audit_agent/evidence_graph.py:107-122 | nodes and edges are exactly those called for, without self-loops; a node keeps its first label, an edge its first rule |
| EvidenceBuilder.LastEvidenceWins | mac_audit_agent/evidence_graph.py:110-114 | a field of a node's evidence has the value of the last artifact that gave it one |
| EvidenceBuilder.NoEdgeDangles | mac_audit_agent/evidence_graph.py:103-273 | at every moment of every build each edge joins nodes of two different types that are both present, except that the event of a finding's observed_with edge may be missing; no call is dropped as a self-loop |
| EvidenceBuilder.NodeTextsAreUnique | mac_audit_agent/evidence_graph.py:104-112 | two nodes of a graph have the same id text only if they are one node |
| EvidenceBuilder.EventNodesAreDescribed | mac_audit_agent/evidence_graph.py:205-247 | an event has a node exactly when some event artifact describes it, so a finding's event link dangles exactly when none does |
| EvidenceBuilder.PidTableIsExact | mac_audit_agent/evidence_graph.py:138-147 | a pid is in the table exactly when some process has it, and stands for that process's id |
| EvidenceBuilder.PathTableIsExact | mac_audit_agent/evidence_graph.py:139-149 | a path stands for the last process at that path |
| EvidenceBuilder.FindingToProcess | mac_audit_agent/evidence_graph.py:213-251 | a finding is linked to a process exactly when some finding of that id names its pid, or the path of the last process there, or mentions that path in its text |
| DatabaseRecovery.Disk.Replace | mac_audit_agent/database_recovery.py:87 | an atomic rename has no moment in between: it happens whole or not at all |
| DatabaseRecovery.Disk.Write | mac_audit_agent/database_recovery.py:69-71 | a write may stop half way and touches no other file |
| DatabaseRecovery.Disk.QuickCheck | mac_audit_agent/database_recovery.py:45-48 | an ordinary check may touch sidecars, never the main image, and logs its answer and the image that passed |
| DatabaseRecovery.StopService | mac_audit_agent/database_recovery.py:66-67 | stopping the service leaves only original files, announced nowhere |
| DatabaseRecovery.CopyEvidence | mac_audit_agent/database_recovery.py:69-71 | when the loop ends every existing database file is byte for byte in evidence; the live files were never touched |
| DatabaseRecovery.DetachPath | mac_audit_agent/database_recovery.py:85-101 | the sidecars are detached byte for byte and the original image goes back into service, after an ordinary check passed and changed by none but the restarted service; nothing is dumped |
| DatabaseRecovery.BuildReplacement | mac_audit_agent/database_recovery.py:102-126 | dump, import, migration and check happen beside the source, which stays of the original generation; success means that the dump was written and the replacement checked; no sidecar is detached |
| DatabaseRecovery.GoLive | mac_audit_agent/database_recovery.py:127-136 | quarantine, moving the old sidecars aside and the replacement keep every moment safe; the image that goes live is the one that was checked, and every old file is in quarantine byte for byte |
| DatabaseRecovery.AfterCopy | mac_audit_agent/database_recovery.py:76-136 | both answers are logged and decide the path: the sidecars are detached and the image handed back undumped when the ordinary check was not ok, the main-only check was and some sidecar existed, and otherwise the image is dumped and rebuilt and no sidecar is detached, on success and on failure |
| DatabaseRecovery.Examine | mac_audit_agent/database_recovery.py:76-83 | the two checks are made in this order and logged, nothing but sidecars is touched, and the second is not made when the first raised |
| DatabaseRecovery.Restart | mac_audit_agent/database_recovery.py:93-96 | a launchd call is ordered over a live image that passed its check, or after an earlier one; from then on the service may write its database, which keeps its generation |
| DatabaseRecovery.Announce | mac_audit_agent/database_recovery.py:93-101 | restart and receipt only over a vetted live image; the receipt gives the source's image and the live one, which is the vetted one unless the restarted service has written to it |
| DatabaseRecovery.PhasesKeepEvidence | mac_audit_agent/database_recovery.py:62-148 | until the copy loop has ended the original image is kept; from then on the evidence is complete in exactly the moments in which no copy was overwritten, and the original image is kept in exactly those and the ones in which it is still at the source path; no recovered image ever lies beside an old sidecar |
| DatabaseRecovery.Recover | mac_audit_agent/database_recovery.py:62-148 | for the whole procedure, whatever fails and wherever: every moment keeps the promises above; on success the image was rebuilt if and only if not (the ordinary check failed, the main-only check was ok, and there was a sidecar), and then the damaged one is in quarantine; on a rebuild no sidecar is ever detached; bootstrap and receipt come only over a checked image; refusals change nothing; after a success the evidence is complete if and only if the source is not named like the receipt and not, when rebuilt, like the dump, and the original image is kept if and only if that holds or the image was not rebuilt and the receipt's two images are the same |
| DatabaseRecovery.StandsByFrame | mac_audit_agent/database_recovery.py:69-71 | evidence survives every step that leaves the copies' names alone |
| DatabaseRecovery.StandsAfterFixed | mac_audit_agent/database_recovery.py:100-104 | opening the dump or the receipt for writing overwrites the copy of a main image of that very name and no other copy |
| DatabaseRecovery.PreservedUnlessOverwritten | mac_audit_agent/database_recovery.py:69-147 | the evidence is complete exactly when the main image's copy was not overwritten |
| DatabaseRecovery.MainKeptIff | mac_audit_agent/database_recovery.py:69-147 | the original main image is kept exactly when its copy was not overwritten or it is still at the source path |
| DatabaseRecovery.QuarantineApart | mac_audit_agent/database_recovery.py:127-135 | quarantine names are apart from the live names and those of their sidecars |
| EmergencyResponse.EmergencyResponseManager.DoActivate | mac_audit_agent/emergency_response.py:112-126 | activation is the specified step, with its errors in order |
| EmergencyResponse.EmergencyResponseManager.CollectSnapshot | mac_audit_agent/emergency_response.py:128-158 | the bundle is written, its digest stored and the row audited |
| EmergencyResponse.EmergencyResponseManager.RestrictNetwork | mac_audit_agent/emergency_response.py:160-172 | a successful restriction stores what the adapter reported, replacing what was stored |
| EmergencyResponse.EmergencyResponseManager.ContainProcess | mac_audit_agent/emergency_response.py:174-188 | the row is audited before the state changes, and weak identities are refused |
| EmergencyResponse.EmergencyResponseManager.BeginRecovery | mac_audit_agent/emergency_response.py:190-196 | recovery mode is entered from an active incident over intact evidence |
| EmergencyResponse.EmergencyResponseManager.DoExit | mac_audit_agent/emergency_response.py:198-212 | exit is the specified step: a stored network state must be restored by the adapter before NORMAL and released are stored |
| EmergencyResponse.EmergencyResponseManager.WriteAudit | mac_audit_agent/emergency_response.py:249-273 | one row in the event table and on the timeline, of which the last 5000 are kept |
| EmergencyResponse.EmergencyResponseManager.RequireActiveAndAuthorized | mac_audit_agent/emergency_response.py:228-244 | passes exactly for an active incident and a valid authorization, refusing as the specified step does |
| EmergencyResponse.EveryCall | mac_audit_agent/emergency_response.py:112-212 | every call audits at most one row, moves only between permitted phases, enters containment or recovery only over evidence whose digest is the stored one, and keeps the stored network state in step with the adapter's answers |
| EmergencyResponse.CallOutcome | mac_audit_agent/emergency_response.py:112-273 | each call succeeds if and only if its own conditions hold and fails with exactly the error its circumstances call for; a success leaves the stated incident (activate: INVESTIGATION with the stripped reason; restrict and contain: CONTAINMENT ACTIVE; recovery: RECOVERY MODE; exit: NORMAL, released, no network state), files, adapter requests and audit row; a failure leaves incident and files as they were |
| EmergencyResponse.LastRowsAreLast | mac_audit_agent/emergency_response.py:273 | the rows kept on the timeline are the last 5000, or all of fewer |
| EmergencyResponse.EveryRunIsAccounted | mac_audit_agent/emergency_response.py:112-212 | after every run a network state is stored exactly when a successful restriction has no later successful restore; NORMAL is never stored over one; every restore was handed the previous state of the latest restriction; the timeline is the last 5000 rows ever audited |
| EmergencyResponse.OutstandingIsLatest | mac_audit_agent/emergency_response.py:160-212 | the outstanding restriction is the latest successful one without a later successful restore |
| EmergencyResponse.LastRowsAppend | mac_audit_agent/emergency_response.py:269-273 | trimming after each row keeps the last rows of all rows |
| EmergencyResponse.InvalidAuthorizationChangesNothing | mac_audit_agent/emergency_response.py:239-244 | a call without valid authorization changes no incident and no file, asks no adapter, and is audited when there is something to charge it to |
| EmergencyResponse.CorruptStoreStopsEverything | mac_audit_agent/emergency_response.py:103-110 | an unreadable store fails every call before it acts |
| EmergencyResponse.SnapshotVerifies | mac_audit_agent/emergency_response.py:128-158 | a collected snapshot passes the evidence check |
| EmergencyResponse.RestrictionOverwritesPrevious | mac_audit_agent/emergency_response.py:168-212 | what exit restores is the network before containment if and only if nothing was restricted yet or the adapter reported that state again |
| EmergencyResponse.GuardedRunsRestoreTheOriginal | mac_audit_agent/emergency_response.py:160-212 | over every run whose restrictions are made only while no network state is stored, the stored previous state is the network as it was before containment |
| EmergencyResponse.OnlyRestrictRestricts | mac_audit_agent/emergency_response.py:112-212 | no call but a restriction asks for one |
| JsonText.StringRoundTrip | mac_audit_agent/data_governance.py:310-311 | reading back a JSON string gives the string, for every string of Unicode scalar values |
| JsonText.ObjectTextDetermines | mac_audit_agent/data_governance.py:310-311 | objects with the same keys and the same text have the same values |
| GovernanceAudit.DecideIsExact | mac_audit_agent/data_governance.py:186-211 | the chain of refusals allows exactly what meets every demand of the policy |
| GovernanceAudit.ReasonIsFirstUnmet | mac_audit_agent/data_governance.py:189-206 | a refusal names the first demand that is not met, in the stated order, and lists exactly the protections that are lacking |
| GovernanceAudit.WeakerNeverGains | mac_audit_agent/data_governance.py:186-211 | taking away a role, an approval, a protection or time never turns a refusal into a permission |
| GovernanceAudit.ShippedPoliciesContain | mac_audit_agent/data_governance.py:110-118 | under the shipped policies only public documentation is shared or sent to an external model, and sensitive data is exported only approved, addressed and encrypted |
| GovernanceAudit.HashInputDetermines | mac_audit_agent/data_governance.py:310-311 | the hashed concatenation splits in one way only, so it determines the previous digest and the payload |
| GovernanceAudit.LastDigestFixesPayloads | mac_audit_agent/data_governance.py:266-275 | two verifying logs with the same last digest have the same length and payloads, or two different texts with one digest are exhibited |
| GovernanceAudit.LastRowsAgree | mac_audit_agent/data_governance.py:266-275 | logs with the same last digest have the same last payload and previous digest, or collide there |
| GovernanceAudit.TailAndEventIdsAreUnprotected | mac_audit_agent/data_governance.py:266-275 | every prefix of a verifying log verifies, and so does the log with another event id |
| GovernanceAudit.VerifiesNext | mac_audit_agent/data_governance.py:266-275 | a verified prefix extends by a row exactly when that row is linked to it |
| GovernanceAudit.DataGovernanceService.VerifyAuditChain | mac_audit_agent/data_governance.py:266-275 | the loop carrying the previous digest accepts exactly the logs whose every row is linked |
| GovernanceAudit.DataGovernanceService.DoAuthorize | mac_audit_agent/data_governance.py:186-211 | a decision is returned if and only if the type is classified, it is allowed if and only if the policy's demands are all met, and it is audited before it is returned |
| GovernanceAudit.DataGovernanceService.DoSetRetention | mac_audit_agent/data_governance.py:237-249 | retention changes only for an allowed request, and both outcomes are audited |
| GovernanceAudit.DataGovernanceService.WriteAudit | mac_audit_agent/data_governance.py:289-298 | one row linked to the last is appended |
| GovernanceAudit.AppendKeepsVerifies | mac_audit_agent/data_governance.py:289-298 | a linked row keeps a verifying log verifying |
| GovernanceAudit.ServeRecords | mac_audit_agent/data_governance.py:186-298 | a request appends exactly one row, of the decision it returns, its time, its user, its action, its resource and its destination, or raises and does nothing |
| GovernanceAudit.ServeDecides | mac_audit_agent/data_governance.py:186-249 | the decision returned is the right one: allowed if and only if permitted, or for a retention period asked by a valid administrator with approval and an owner, with the reason that applies; errors come exactly for unclassified types and periods below a day |
| GovernanceAudit.EveryRunVerifies | mac_audit_agent/data_governance.py:186-298 | from any verifying ledger, the log after every run of requests verifies and is the earlier log followed by one record of each decided request, in order; every request that is not turned away is decided, and decided rightly |
| GovernanceAudit.DataGovernanceService.constructor | mac_audit_agent/data_governance.py:170-178 | opening a database keeps its log and its retention periods and adds the shipped period of every classified type without one |
| GovernanceAudit.RetentionChangesAreAuthorized | mac_audit_agent/data_governance.py:237-249 | a retention period is set, to the days and owner asked for, by an allowed decision of a valid administrator for that type and never below a day, and stays as it was in every other case |
| SecurityForecast.BuildCards | mac_audit_agent/cve_radar.py:1474-1626 | the loop returns the cards and counters of the specified fold |
| SecurityForecast.Screen | mac_audit_agent/cve_radar.py:1491-1518 | every branch of the filter and the matcher counts the advisory under its own fate |
| SecurityForecast.EveryAdvisoryIsCounted | mac_audit_agent/cve_radar.py:1474-1553 | after every advisory downloaded so far = invalid + historical + hidden as not for a Mac + filtered + hidden for review + applicable, and the cards' CVEs number the applicable ones |
| SecurityForecast.FoldKeepsCards | mac_audit_agent/cve_radar.py:1519-1570 | after every advisory all cards are sound and no card's level or severity has fallen |
| SecurityForecast.AddKeepsSound | mac_audit_agent/cve_radar.py:1550-1570 | a card with a known-exploited CVE is at least urgent, and a critical one is confirmed with such a CVE |
| SecurityForecast.KnownExploitedIsPart | mac_audit_agent/cve_radar.py:1552-1553 | a card's known-exploited CVEs are a part, with repetitions, of its CVEs: exactly those in the catalogue |
| SecurityForecast.CardIsItsOwnFold | mac_audit_agent/cve_radar.py:1519-1549 | each card is the fold of the advisories of its own category and of nothing else |
| SecurityForecast.CardLists | mac_audit_agent/cve_radar.py:1550-1560 | a card lists the CVEs of its own advisories in order, and separately the known-exploited ones and those whose EPSS percentile is 0.90 or more |
| SecurityForecast.FirstAdvisoryDecidesCritical | mac_audit_agent/cve_radar.py:1519-1565 | a card has the applicability of its first advisory and is critical if and only if that is confirmed and some advisory of the card is known exploited with a fixed version |
| SecurityForecast.CardIsCriticalIff | mac_audit_agent/cve_radar.py:1474-1565 | the same of every card after any number of advisories |
| SecurityForecast.LateConfirmationIsNotCritical | mac_audit_agent/cve_radar.py:1519-1565 | two advisories whose card is critical in one order and not in the other |
| SecurityForecast.MacOSIsAlwaysDetected | mac_audit_agent/cve_radar.py:1791-1792 | the text tested for a detected macOS is never empty |
| SecurityForecast.ApplicabilityIff | mac_audit_agent/cve_radar.py:1788-1844 | an advisory is not applicable if and only if the installed version is known not to be older than the fixed one; confirmed if and only if it is older, or the comparison has no answer, the product is detected and the CVE is known exploited; likely and left for review if and only if there is no answer and the product is, or is not, detected |
| SecurityForecast.CategoryIff | mac_audit_agent/cve_radar.py:1788-1841 | the category follows from the family, both ways |
| SecurityForecast.FilterNamesFirstFlaw | mac_audit_agent/cve_radar.py:1628-1648 | the filter names the first flaw of an advisory, in the stated order and with its dates in microseconds, and keeps an advisory without one |
| SecurityForecast.ApplicableIff | mac_audit_agent/cve_radar.py:1491-1648 | an advisory reaches a card if and only if it is an evidenced Apple advisory for a Mac family, dated from 2020 to a day ahead and less than 181 days old, that this Mac is not known to be past, for a detected product or with unclear ones asked for |
| SecurityForecast.OtherFates | mac_audit_agent/cve_radar.py:1491-1518 | each other fate of an advisory, if and only if its flaw or the comparison of versions calls for it |
| SecurityForecast.CountersAreTallies | mac_audit_agent/cve_radar.py:1474-1518 | each of the nine counters is the number of advisories of its kind |
| SecurityForecast.EcosystemOptionShowsNothing | mac_audit_agent/cve_radar.py:1633-1637 | including advisories of other Apple devices changes no card and no counter but their own |
| SecurityForecast.SeverityBands | mac_audit_agent/cve_radar.py:106-116 | each severity is its band of scores, and a higher score is never less severe |
| SecurityForecast.ReviewNeededIff | mac_audit_agent/cve_radar.py:1788-1841 | an advisory awaits review if and only if its family is not macOS and no version of it is known |
| SecurityForecast.UnknownVersionAwaitsReviewIff | mac_audit_agent/cve_radar.py:1788-1844 | a product of unknown version awaits review if and only if it is not macOS; an unknown macOS is confirmed for an exploited CVE and likely otherwise |
| SecurityForecast.UnknownMacOSIsConfirmed | mac_audit_agent/cve_radar.py:1791-1844 | an inventory without macOS version or build for which an exploited CVE is confirmed |
| ForecastOrder.CardIsRated | mac_audit_agent/cve_radar.py:1550-1570 | a card's level and severity depend on exploitation, probability, fixed version and score of its advisories and on the applicability of the first one alone |
| ForecastOrder.RatedLevel | mac_audit_agent/cve_radar.py:1561-1570 | the level in terms of what occurs among the advisories, order counting only between elevated and urgent |
| ForecastOrder.OrderIsImmaterialIff | mac_audit_agent/cve_radar.py:1561-1570 | for a card of one given applicability every order of the same signs gives the same level if and only if they are not mixed |
| ForecastOrder.OneCategoryRaisesAlike | mac_audit_agent/cve_radar.py:1788-1844 | in one category either every advisory is raised by severity or none is |
| ForecastOrder.CardOrderIff | mac_audit_agent/cve_radar.py:1519-1570 | every order of a category's advisories, each order with the applicability of its own first advisory, gives the card the same level if and only if they are neither mixed nor decided by the first one |
| ForecastOrder.CatalogOrderIff | mac_audit_agent/cve_radar.py:1474-1570 | every order of the catalog leaves a category's card at the level it has if and only if its advisories are neither mixed nor decided by the first one |
| ForecastOrder.MixedCardTurns | mac_audit_agent/cve_radar.py:1519-1570 | a mixed card is elevated with its plain advisories first and urgent with them last |
| ForecastOrder.CardOrderIsImmaterial | mac_audit_agent/cve_radar.py:1519-1570 | outside the two mixtures every reordering of a category's advisories keeps the card's level |
| ForecastOrder.AnotherOrder | mac_audit_agent/cve_radar.py:1519-1570 | in either mixture some reordering changes the level |
| ForecastOrder.SameAdvisoriesOtherLevel | mac_audit_agent/cve_radar.py:1474-1570 | a catalog of two advisories whose fold makes their card urgent in one order and elevated in the other |
| SecurityForecast.OverallIsHighest | mac_audit_agent/cve_radar.py:1886-1899 | the overall level is the highest card level when that is elevated or above, and watch or elevated, by the stated rule, below |
| SecurityForecast.FinalCardsAre | mac_audit_agent/cve_radar.py:1581-1622 | the cards returned are those of the fold and, exactly for a pending update, one elevated card without CVEs |
| SecurityForecast.PendingUpdateElevates | mac_audit_agent/cve_radar.py:1581-1622 | with a pending update the overall level is at least elevated |
| ForecastGrouping.GroupForDisplay | mac_audit_agent/cve_radar.py:896-925 | for all cards each group has its cards as alerts, their highest level and severity and their products, in sorted order; for cards that share no lists the result is the specified grouping, first cards hold their groups' lists and no other card is changed |
| ForecastGrouping.Absorb | mac_audit_agent/cve_radar.py:913-923 | the merge branch extends the group's own lists in place and recounts |
| ForecastGrouping.CategoriesStayApart | mac_audit_agent/cve_radar.py:900-902 | categories without a colon never share a group key unless category and title agree |
| ForecastGrouping.AlertsAreTheCards | mac_audit_agent/cve_radar.py:909-916 | the alerts of all groups together are the cards, each as often as it occurs |
| ForecastGrouping.DisplayConservesCves | mac_audit_agent/cve_radar.py:913-915 | the CVEs, known-exploited CVEs and high-probability CVEs displayed are those of the cards, with repetitions |
| ForecastGrouping.GroupSummarises | mac_audit_agent/cve_radar.py:917-923 | a group's level and severity are the highest of its members, its lists and products hold exactly theirs, and the counts of a merged group count distinct CVEs |
| ForecastGrouping.OrderDecidesNothing | mac_audit_agent/cve_radar.py:896-923 | whatever order the cards come in, the groups are the same and say the same |
| ForecastGrouping.DisplayIsSorted | mac_audit_agent/cve_radar.py:924-925 | the groups displayed are all groups, in non-increasing order of level, known-exploited count and CVE count |
| ForecastGrouping.StableOrderIsTheOnlyOne | mac_audit_agent/cve_radar.py:925 | the display order is the only one by rank that leaves equals as they came |
| ForecastGrouping.GroupingAgainChangesNothing | mac_audit_agent/cve_radar.py:896-925 | grouping the displayed groups gives the same groups in the same order |
| ForecastGrouping.DisplayAgain | mac_audit_agent/cve_radar.py:896-925 | a call on the result of a call returns groups of the same values in the same order |
| ForecastGrouping.DisplayKeepsKeys | mac_audit_agent/cve_radar.py:900-911 | a displayed group has the key of its cards, so grouping it again uses the same keys |
| ForecastGrouping.GroupsAreApart | mac_audit_agent/cve_radar.py:905-911 | groups with different keys share no list objects, so they can be grouped again |
| ForecastGrouping.LeftGroupsRepeat | mac_audit_agent/cve_radar.py:905-915 | of the cards one call leaves behind, every group lists all but its first card's CVEs, known-exploited and high-probability ones included, a second time and says nothing new |
| ForecastGrouping.GroupTwice | mac_audit_agent/cve_radar.py:896-925 | a second call on the same card objects shows exactly those groups |
| ForecastGrouping.RepeatsNothingIff | mac_audit_agent/cve_radar.py:905-915 | the second call leaves a group's CVEs as they are if and only if its cards after the first have none |
| Rounding.RoundIsNear | mac_audit_agent/continuous_security_assurance.py:27-28 | rounding moves a quotient by at most one half |
| Rounding.TiesToEven | mac_audit_agent/continuous_security_assurance.py:27-28 | a quotient half way between two integers goes to the even one |
| Rounding.RoundMonotone | mac_audit_agent/continuous_security_assurance.py:27-28 | rounding never reverses an order |
| Rounding.RoundExact | mac_audit_agent/cyber_resilience.py:120-122 | a whole quotient is returned as it is |
| PostureScore.ValidateDefinitions | mac_audit_agent/continuous_security_assurance.py:307-312 | accepts exactly distinct keys, known domains and rules, and positive weights |
| PostureScore.ScoreIsNearExact | mac_audit_agent/continuous_security_assurance.py:284-287 | the twice rounded score lies in 0..100 and within one point of the exact weighted percentage |
| PostureScore.Compare | mac_audit_agent/continuous_security_assurance.py:171-193 | the loop reports the specified changes |
| PostureScore.ReportedIff | mac_audit_agent/continuous_security_assurance.py:171-193 | between any two snapshots a change is reported if and only if some signal, compared with the last earlier one of its key, has two known statuses and a different status or value, with the type, severity and impact these call for |
| PostureScore.ReportedOnce | mac_audit_agent/continuous_security_assurance.py:171-193 | no signal is reported twice |
| PostureScore.CoverageIsNear | mac_audit_agent/continuous_security_assurance.py:153-155 | the coverage is within one half of the exact share of the known weight |
| PostureScore.TrustTakes | mac_audit_agent/continuous_security_assurance.py:293-299 | the trust decisions by what each demands of coverage, critical concerns and score |
| PostureScore.DomainIsNear | mac_audit_agent/continuous_security_assurance.py:284-287 | a domain score lies in 0..100 and within one half of the exact share |
| PostureScore.LosingASignalCosts | mac_audit_agent/continuous_security_assurance.py:284-291 | losing a validated signal never raises the score and costs its impact to within one point |
| PostureScore.RecordedImpactIsNearDrop | mac_audit_agent/continuous_security_assurance.py:171-193 | one signal turning from validated to concern is reported as exactly that regression, with an impact within one point of the actual drop, and turning back as the mirror improvement |
| PostureScore.LostEvidenceIsSilent | mac_audit_agent/continuous_security_assurance.py:171-193 | a signal turning unknown costs as much as a concern and is reported as no change |
| PostureScore.TurnIsReportedIff | mac_audit_agent/continuous_security_assurance.py:171-193 | one signal's change is reported if and only if neither status is unknown and its status or value differs |
| PostureScore.RegressionThroughAGapIsSilent | mac_audit_agent/continuous_security_assurance.py:171-193 | from validated to unknown to concern neither comparison reports anything, though the direct one reports the regression |
| PostureScore.RegressionNeverRaisesTrust | mac_audit_agent/continuous_security_assurance.py:293-299 | a regression never raises the trust decision, and a critical one denies all but restricted trust |
| PostureScore.LosingSightRaisesTrustIff | mac_audit_agent/continuous_security_assurance.py:284-299 | a concern turning unknown raises the trust decision if and only if it was the only critical one, the coverage left is at least 60 and the score at least 70 |
| PostureScore.UnseenConcernRaisesTrust | mac_audit_agent/continuous_security_assurance.py:111-132 | with the shipped table, all else healthy, any critical concern that turns unknown raises the trust decision |
| PostureScore.ShippedImpactIsDropIff | mac_audit_agent/continuous_security_assurance.py:111-132 | for each of the 18 shipped signals, everything else healthy, the recorded impact is the drop of the score if and only if it is not the firewall's or system integrity protection's, which are recorded as 5 and cost 6 |
| PostureScore.DisabledFirewallCostsMore | mac_audit_agent/continuous_security_assurance.py:111-132 | with the shipped table, all else healthy, a disabled firewall has impact 5 and costs 6 points |
| ResilienceScore.ValidateControls | mac_audit_agent/cyber_resilience.py:149-156 | accepts exactly distinct ids, known categories, positive weights, mapped frameworks and weights of 100 in every category |
| ResilienceScore.Assess | mac_audit_agent/cyber_resilience.py:82-89 | a control is passed, or failed, if and only if evidence with a reference says so; each category scores the exact sum of its credits; the overall score is within half a point of the exact weighted value; coverage is 100 if and only if the controls not measured weigh at most 4 of 800; changes are those specified |
| ResilienceScore.CategoryIsExact | mac_audit_agent/cyber_resilience.py:120-122 | with valid weights rounding changes no category score |
| ResilienceScore.OverallIsNear | mac_audit_agent/cyber_resilience.py:89 | the overall score is within one half of the exact weighted value |
| ResilienceScore.PerfectMeansHalfAPoint | mac_audit_agent/cyber_resilience.py:89 | the overall score is 100 exactly when at most half a point is lost |
| ResilienceScore.PerfectIsCompleteIff | mac_audit_agent/cyber_resilience.py:10-89 | an overall 100 guarantees that every control passed if and only if every control is worth more than half a point |
| ResilienceScore.ShippedIdsDiffer | mac_audit_agent/cyber_resilience.py:36-78 | no two shipped controls have the same id text |
| ResilienceScore.ShippedIsValid | mac_audit_agent/cyber_resilience.py:36-78 | the shipped table passes the validation: distinct ids, mapped controls, and weights of 100 in every category |
| ResilienceScore.ShippedPerfectIsComplete | mac_audit_agent/cyber_resilience.py:36-89 | with the shipped table the overall score is 100 exactly when every control passed |
| ResilienceScore.CompareResults | mac_audit_agent/cyber_resilience.py:123-129 | the loop over the results records the specified changes, an id seen twice before counting with its last result |
| ResilienceScore.ChangesTelescope | mac_audit_agent/cyber_resilience.py:123-129 | the score changes recorded in a category sum to that category's change of score |
| ResilienceScore.EveryStatusChangeIsNamed | mac_audit_agent/cyber_resilience.py:123-129 | a control is among the changes exactly when its status changed |
| ResilienceScore.OverallFollowsChanges | mac_audit_agent/cyber_resilience.py:89-129 | the overall score follows the recorded changes, weighted by category, to within one point |
| BaselineDrift.SortedIsStrict | mac_audit_agent/baseline_drift.py:214 | the sorted keys are strictly increasing and are all the keys |
| BaselineDrift.DriftIdDetermines | mac_audit_agent/baseline_drift.py:257-258 | a drift id determines category, change and key, for categories without a colon |
| BaselineDrift.Diff | mac_audit_agent/baseline_drift.py:208-232 | the nested loops return the specified findings and the number suppressed |
| BaselineDrift.PairsComplete | mac_audit_agent/baseline_drift.py:210-214 | the pairs visited are exactly the keys of either state in the tracked categories |
| BaselineDrift.EveryDifferenceIsCounted | mac_audit_agent/baseline_drift.py:208-232 | findings and suppressed together number the differing pairs |
| BaselineDrift.FindingsAre | mac_audit_agent/baseline_drift.py:208-232 | the findings are exactly the unexpected differences over the tracked categories, each with its two values and added, removed or changed as these say |
| BaselineDrift.PatchesBackIff | mac_audit_agent/baseline_drift.py:208-232 | applying the findings to the baseline gives the current state exactly when the nulls line up |
| BaselineDrift.DiffIsTrue | mac_audit_agent/baseline_drift.py:208-232 | without nulls the diff patches back and is empty exactly when the states agree |
| BaselineDrift.SwappingMirrors | mac_audit_agent/baseline_drift.py:208-232 | swapping the states swaps added with removed and keeps changed, in the same order |
| BaselineDrift.MarkingDropsOne | mac_audit_agent/baseline_drift.py:193-232 | expecting one reported drift drops exactly that finding and suppresses one more |
| BaselineDrift.MarkingChangesIff | mac_audit_agent/baseline_drift.py:193-232 | expecting an id changes the findings if and only if it is the id of one of them; what disappears is suppressed instead |
| BaselineDrift.TrackedAreDistinct | mac_audit_agent/baseline_drift.py:12-29 | no category is tracked twice |
| BaselineDrift.TrackedAreColonFree | mac_audit_agent/baseline_drift.py:12-29 | no tracked category has a colon |
| BaselineDrift.BaselineDriftEngine.TakeBaselineAndCompare | mac_audit_agent/baseline_drift.py:152-191 | a state taken as the baseline of an id shows no drift against itself under that id, whatever is expected; baselines of other ids stay |
| BaselineDrift.BaselineDriftEngine.MarkExpected | mac_audit_agent/baseline_drift.py:193-196 | the drift id joins the expected ones when there is a database |
| BaselineDrift.BaselineDriftEngine.AddNote | mac_audit_agent/baseline_drift.py:198-201 | a note makes the drift expected as well |
| BaselineDrift.BaselineDriftEngine.CompareCurrentState | mac_audit_agent/baseline_drift.py:158-191 | the comparison is with the given baseline, else the stored one of the id, else none |
| BaselineDrift.BaselineDriftEngine.MarkAndCompareAgain | mac_audit_agent/baseline_drift.py:173-201 | marking, or merely annotating, any id changes the next comparison if and only if there is a database and the id is that of a reported drift, which is then dropped and suppressed |
| TimesheetPeriods.FourDaysAfterThe28th | mac_audit_agent/consultant_timesheet.py:163 | day 28 plus four days always falls in the next month, leap years and December included |
| TimesheetPeriods.PeriodsPartitionTime | mac_audit_agent/consultant_timesheet.py:153-164 | start <= now < end; exactly the instants in between have the same bounds; the next period starts at the end |
| TimesheetPeriods.BoundsAre | mac_audit_agent/consultant_timesheet.py:153-164 | the bounds are midnights spanning the day, the seven days from the Monday on, or the calendar month that now lies in, and are empty for any other period |
| TimesheetPeriods.WeekdayIsAnchored | mac_audit_agent/consultant_timesheet.py:158 | weekdays count days from a known Monday, the first of January 2024 |
| TimesheetPeriods.OverflowExactly | mac_audit_agent/consultant_timesheet.py:153-164 | bounds fail to exist only for the last day, week or month of year 9999 |
| TimesheetPeriods.OrdinalOrders | mac_audit_agent/consultant_timesheet.py:157-163 | the calendar's order of dates is that of their day numbers |
| TimesheetPeriods.PlusDaysCounts | mac_audit_agent/consultant_timesheet.py:161-163 | adding days moves the day number by as many, inside the calendar |
| TimesheetPeriods.MinusDaysCounts | mac_audit_agent/consultant_timesheet.py:158 | subtracting days moves the day number back by as many |
| TimesheetTimer.ConsultantTimesheetRepository.Active | mac_audit_agent/consultant_timesheet.py:77-79 | finds the running entry, the only one, or reports that there is none |
| TimesheetTimer.ConsultantTimesheetRepository.DoStart | mac_audit_agent/consultant_timesheet.py:81-96 | adds a running entry and an event, or fails with the first error that applies and changes nothing |
| TimesheetTimer.ConsultantTimesheetRepository.DoSaveNotes | mac_audit_agent/consultant_timesheet.py:98-109 | replaces the notes of one entry and nothing else |
| TimesheetTimer.ConsultantTimesheetRepository.DoStop | mac_audit_agent/consultant_timesheet.py:111-122 | ends a running entry with its rounded duration; an ended one is returned as it is |
| TimesheetTimer.StartOutcome | mac_audit_agent/consultant_timesheet.py:81-96 | start fails for a running entry, then for a name of nothing but blanks and NULs, then for a used id, and otherwise adds one running entry with the cleaned names |
| TimesheetTimer.NotesOutcome | mac_audit_agent/consultant_timesheet.py:98-109 | saving notes fails only for an unknown id, and changes the notes and update time of that entry alone |
| TimesheetTimer.StopOutcome | mac_audit_agent/consultant_timesheet.py:111-122 | stop fails only for an unknown id or an unreadable time, leaves an ended entry alone, and ends a running one with its nearest whole seconds |
| TimesheetTimer.CleanIs | mac_audit_agent/consultant_timesheet.py:73-75 | cleaning keeps to the limit, leaves no NUL and no leading blank, leaves nothing exactly when there is nothing else, and leaves a clean text alone |
| TimesheetTimer.EveryRunIsSound | mac_audit_agent/consultant_timesheet.py:77-122 | over every run ids stay unique, at most one entry runs, and an ended entry's times and names are final |
| TimesheetTimer.StopIsIdempotent | mac_audit_agent/consultant_timesheet.py:111-122 | stopping again, whenever, changes nothing |
| TimesheetTimer.CanStopIff | mac_audit_agent/consultant_timesheet.py:111-118 | a running entry can be stopped by some call if and only if its start can be read against some time |
| TimesheetTimer.UnreadableStartBlocks | mac_audit_agent/consultant_timesheet.py:81-118 | an entry started at an unreadable time keeps running in every run and every later start fails |
| TimesheetTimer.UnreadableStartIsTheLast | mac_audit_agent/consultant_timesheet.py:81-118 | a successful start at an unreadable time is the last one in every run after it |
| TimesheetTimer.OnlyStoppingBills | mac_audit_agent/consultant_timesheet.py:111-122 | only stopping a running entry adds time, the seconds from start to end to the nearest, never a negative amount |
| TimesheetTimer.StopBills | mac_audit_agent/consultant_timesheet.py:111-122 | stopping a running entry bills the nearest whole seconds it ran, and nothing for a negative time |

## Left out

- EvidenceBuilder.GraphBuilder.Build: leaves out the order the nodes and edges are sorted into, because nothing else depends on it.
- EvidenceBuilder: the signed status copied into an executable's node, and that a node's evidence is the artifact's own dictionary, which later updates also change; which field of an artifact gives a key, label or summary is an input.
- EvidenceWalk: the `evidence` text is a field of the edge that is copied, without further claims.
- DatabaseRecovery: what the restarted service writes while and after the receipt is written, other processes writing at the same time, and file ownership and modes, which only may fail.
- EmergencyResponse: severities, scores and host names in audit metadata, lower-casing of the threat level, failures of the store's own writes, the temporary file of a snapshot, and the wording of fixed reasons.
- JsonText: lone surrogates, which are not characters here; keys are the fixed ones of the payload.
- GovernanceAudit: a stop between an update of a retention period and its audit row, detection and redaction of secrets by regular expressions, retention candidates and the transparency report.
- SecurityForecast.BuildCards: leaves out references, product lists, titles and review texts of cards, which no decision reads.
- SecurityForecast: reading family, date, evidence and score off an advisory's text; version comparison is an oracle; the texts of cards.
- ForecastGrouping.GroupForDisplay: says nothing of CVE lists and counts for cards that share list objects, which `to_dict` never makes; a card's three lists are shared together or not at all; missing keys and unknown level names are not modelled, and affected products are a set.
- PostureScore: `_status` reading a raw value, the average of three domains stored as a trust score, incident correlation, the dashboard and the repository.
- ResilienceScore: sanitising evidence, reading a status word, texts of explanations, the integrity hash and the repository.
- BaselineDrift: the trusted and source fields of a snapshot, building a state from a payload, and the texts of findings; values are compared as their stable JSON texts.
- TimesheetPeriods: time zones: bounds are those of the wall clock that `now` shows.
- TimesheetTimer: exports, listing, floating-point rounding inside `total_seconds`, and the metadata of events.
- Automated compliance, cases, fleet baselines, lockdown and DNS assurance: their rules are simpler versions of the above.
- The shadowed first `CveRadarEngine` and `group_alerts_for_display`, which are rebound later in the same file.
- Collectors, command tables, the GUI, exporters and report texts.
