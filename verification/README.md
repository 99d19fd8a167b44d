# Nexus: claim protocol, orchestrator, arbitration, audit log, ledger, A2A codec

A Dafny model of the Python reference implementation of Nexus (`python/src/nexus`), with
proofs about it. `dafny verify dfyconfig.toml` checks everything.

- **Filesystem, ClaimProtocol**: the filesystem message bus. `FilesystemTransport` is a class
  whose methods perform the file operations of the original one by one; between any two of
  them other processes may run. `ClaimProtocol` is the same protocol as a transition system
  with any number of workers and any interleaving. It is proved to refine an atomic machine
  with one status per message (Available, Held by a worker, Done). A claim takes effect at
  the exclusive create, a completion at the creation of the done marker. A worker handles one
  message at a time and calls `complete` or `release` once, for the message its own `claim`
  returned; a process handling several messages is several workers. A worker that halts takes
  no further step.
- **Core, Orchestrator**: `NexusCore`. Module Core says what `route` and `debate` do as functions
  from state to state; the class in Orchestrator has the original's fields and loops, and each
  method is proved to do exactly that, threaded dispatch under every completion order included.
  **Requests, Pools, Records, History, Routing, Gates, Debates, Exits, Graph** prove properties of the
  functions over any state and over all sequences of calls, with agents registered and unregistered
  in between: what is asked for is what is recorded and handed to the handlers, who is asked and who
  picked, what passes the gates, what is decided and what is left in trace, log and graph.
- **Trust, Arbitration, StableSort**: evidence strength, trust scores, ranking and the arbiter,
  over exact reals.
- **Policy, Agents, Protocol**: the two gates, the normalisation of what handlers return, and
  the wire objects with their encoders and decoders.
- **Audit**: the hash-chained log. The canonical form and the hash are arbitrary functions;
  nothing is assumed about them. From two different verifying logs with one head, a function
  computes the collision (or preimage of the genesis value) that must exist.
- **Lessons, Digest**: the lessons ledger and its digest, with a reader that takes the digest's lines
  apart again.
- **A2A**: the mapping to Agent2Agent messages and tasks.
- **Lists, StringOrder**: sequences and Python's string order.

What is not computed by the modelled code is a parameter: the hash, the slug and mechanism
detectors, handlers and approvers (arbitrary functions of what they get and of the moment they
are called, which may raise), fresh ids, clock readings and message wording.

## Findings

Where code and documentation disagree the model follows the code.

- `audit.py` says altering or deleting any event is visible to `verify()`. Deleting events from
  the end is not: every prefix verifies (`Audit.DeletionSeenIff`, `Audit.PrefixVerifies`). The
  head hash is what commits to the history (`Audit.FindBreak`).
- `pending()` does not look at the receiver. Two agents whose ids are sanitised to the same
  directory name see each other's messages and cannot claim them
  (`Filesystem.SafeDirCollision`, `ClaimProtocol.ListedButNotAddressed`).
- The second look at the done marker in `claim` is needed: a state where it decides is reachable
  (`ClaimProtocol.TentativeClaimReachable`).
- `debate(parallel=True)` with a `max_candidates` that leaves no candidate, such as 0, raises
  `ValueError` from the executor and leaves the task unanswered, where the sequential form records
  an error (`Debates.ParallelMatchesSequential`, `Exits.NobodyLeftToAsk`).
- A task stays unanswered in the trace exactly if an approver raises over it or over the debate's
  verdict, its handler raises an exception that is not caught or returns something `Agent.handle`
  rejects, or in that threaded debate (`Exits.TraceIsPaired`; `Exits.CrashLeavesTask`,
  `Exits.ApproverLeavesTask` and `Exits.ConflictApproverLeavesTask` are small runs). Where the
  conflict approver raises, the graph already has every edge of the debate but the `won` edge
  (`Graph.AbandonedDrawsNothing`, `Graph.ConflictBreakDraws`).
- An `ErrorPayload` a handler returns is not checked for its task id (`Records.ErrorReplyTask`,
  `Exits.ForeignErrorSent`).
- Deleting a loser never changes the winning output, but it can change the winning agent, when the
  remaining answers agree (`Arbitration.LosersDoNotUnseat`, `Arbitration.LoserUnseatsWinner`).
- A score can be more than one half below its raw score, exactly when the raw score is above 3/2,
  which takes a custom weight above 3/2 (`Trust.PenaltyAtMostHalf`, `Trust.ClampTakesOne`).
- A CANCELED A2A task decodes to a success unless its metadata say otherwise
  (`A2A.CanceledSuccessIff`, `A2A.CanceledBecomesSuccess`).
- RFC-0005 (docs/rfcs/0005-debate-arbitration.md:101) says `debate` records nothing; the code records.

## Model

| member | source | states |
|---|---|---|
| Filesystem.SafeDirInjective | python/src/nexus/transport/filesystem.py:59-72 | two canonical agent ids with one directory name are the same id, and such ids are always accepted |
| Filesystem.SafeDirCollision | python/src/nexus/transport/filesystem.py:69-72 | outside the canonical form two different ids can share a directory |
| Filesystem.SafeDirCharacters | python/src/nexus/transport/filesystem.py:59-72 | which characters of an id stay in its directory name, all others become `_`; only the empty id, `.` and `..` are refused |
| Filesystem.MessageIdCharacters | python/src/nexus/transport/filesystem.py:43-85 | a valid message id is `msg-` and 32 characters of 0123456789abcdef |
| Filesystem.SendOutcome | python/src/nexus/transport/filesystem.py:155-172 | the exact reason a send fails, and otherwise the one file it adds, with ids described by their characters |
| Filesystem.ClaimOutcome | python/src/nexus/transport/filesystem.py:189-211 | the same for an undisturbed claim |
| Filesystem.FinishOutcome | python/src/nexus/transport/filesystem.py:213-231 | the same for an undisturbed complete and release; a release ignores the done marker, neither checks the holder |
| Filesystem.FileNameOrder | python/src/nexus/transport/filesystem.py:179 | sorting message files by name is sorting messages by id |
| StringOrder.LessIsLexicographic | python/src/nexus/transport/filesystem.py:179 | the order of names is decided by the smaller character at the first difference, a proper prefix coming first |
| Filesystem.Listing | python/src/nexus/transport/filesystem.py:179 | the sorted listing is strictly increasing and names exactly the inbox files of the directory |
| Filesystem.FilesystemTransport.constructor | python/src/nexus/transport/filesystem.py:132-133 | a new bus has no files |
| Filesystem.FilesystemTransport.Send | python/src/nexus/transport/filesystem.py:155-172 | succeeds iff it replies to nothing or to a well-formed id, the receiver has a directory and no file of that name is there; the whole new state and answer, with the reason of a failure |
| Filesystem.FilesystemTransport.Pending | python/src/nexus/transport/filesystem.py:174-183 | alone: exactly the unfinished messages in id order; among other processes: every message there at the start and unfinished at the end, none finished at the start, in id order |
| Filesystem.FilesystemTransport.Claim | python/src/nexus/transport/filesystem.py:189-211 | under any interference a returned claim is a new claim of this process on an unfinished message addressed to it, a failed one leaves its claims as they were; alone, the exact state and answer |
| Filesystem.FilesystemTransport.Complete | python/src/nexus/transport/filesystem.py:213-224 | under any interference the holder's completion succeeds, marks the message done and gives up the claim; alone, the exact state and answer for any caller |
| Filesystem.FilesystemTransport.Release | python/src/nexus/transport/filesystem.py:226-231 | under any interference the holder's release succeeds, removes its claim and leaves the done marker as it was; alone, the exact state and answer for any caller |
| Filesystem.ReleaseUndoesClaim | python/src/nexus/transport/filesystem.py:189-231 | claim followed by release restores all files |
| Filesystem.CompletionIsFinal | python/src/nexus/transport/filesystem.py:189-224 | after claim and complete no later claim succeeds, the message leaves the listing, and no other listing changes |
| ClaimProtocol.AtomicMachineSafety | python/src/nexus/transport/filesystem.py:20-21 | the atomic machine finishes a message at most once, and holds never overlap or follow Done |
| ClaimProtocol.InvariantAlways | python/src/nexus/transport/filesystem.py:189-231 | in every run claim files and the workers that own them correspond one to one, and each worker's local knowledge is right |
| ClaimProtocol.StepRefines | python/src/nexus/transport/filesystem.py:189-231 | each file operation is one move of the atomic machine on one message, or invisible to it |
| ClaimProtocol.Refinement | python/src/nexus/transport/filesystem.py:189-231 | every interleaved run is a run of the atomic machine with the same status for every message |
| ClaimProtocol.ReturnsMatchEffects | python/src/nexus/transport/filesystem.py:198-231 | for each worker, and for all together, returned claims, completions and releases match the steps where they take effect one to one, but for calls still returning |
| ClaimProtocol.ClaimSafety | python/src/nexus/transport/filesystem.py:198-224 | in every run, workers halting anywhere included: at most one successful completion per message, at most one worker between a returned claim and its completion or release |
| ClaimProtocol.StepOutcomes | python/src/nexus/transport/filesystem.py:189-231 | no claim returns once the done marker exists or while another works; each failed claim has its reason; completion and release by the holder never fail |
| ClaimProtocol.HaltedWorkerBlocks | python/src/nexus/transport/filesystem.py:198-231 | once a worker halts between creating and unlinking its claim file, no claim of that message ever returns, whatever others do |
| ClaimProtocol.OthersInterfere | python/src/nexus/transport/filesystem.py:155-231 | any steps of other workers satisfy the interference the transport's methods are proved under |
| ClaimProtocol.ClaimStepsMeetSpec | python/src/nexus/transport/filesystem.py:189-211 | the steps of claim, run undisturbed, have the outcome of the method's specification |
| ClaimProtocol.CompleteStepsMeetSpec | python/src/nexus/transport/filesystem.py:213-224 | so do the steps of the holder's complete |
| ClaimProtocol.ReleaseStepsMeetSpec | python/src/nexus/transport/filesystem.py:226-231 | so do the steps of the holder's release |
| ClaimProtocol.TentativeClaimReachable | python/src/nexus/transport/filesystem.py:208-210 | for every sendable message a run reaches a claim file created after its done marker |
| ClaimProtocol.InboxIsWhatWasSent | python/src/nexus/transport/filesystem.py:165-172 | in every run an envelope is in an inbox iff its send succeeded, at its receiver and id |
| ClaimProtocol.SendStepOutcome | python/src/nexus/transport/filesystem.py:155-172 | in any state the send of a fresh message id succeeds iff it replies to nothing or to a well-formed id, its receiver is not empty, `.` or `..`, and no file of that name is there; the reason of each failure |
| ClaimProtocol.DoneIsWhatWasFinished | python/src/nexus/transport/filesystem.py:218-223 | in every run a done marker exists iff the message was finished |
| ClaimProtocol.PendingIsSentMinusFinished | python/src/nexus/transport/filesystem.py:174-183 | in every run the listing of a directory is what was sent there minus what was finished |
| ClaimProtocol.PendingOfCanonicalAgent | python/src/nexus/transport/filesystem.py:174-183 | with canonical ids, pending(a) is exactly what was sent to a and not finished |
| ClaimProtocol.PendingInIdOrder | python/src/nexus/transport/filesystem.py:179-183 | the listing is in increasing id order |
| ClaimProtocol.ListedButNotAddressed | python/src/nexus/transport/filesystem.py:179-196 | a listed message is refused to the listing agent iff it is addressed to another one |
| Protocol.TrueEqualsOne | python/src/nexus/arbitration.py:87-88 | equality of outputs is Python's, which takes True for 1 and not for 0 |
| Protocol.SameDictIsEqual | python/src/nexus/arbitration.py:87-88 | two outputs are the same iff they have the same keys with values equal case by case: lists item by item, dicts key by key, booleans as numbers |
| Protocol.EvidenceDecodes | python/src/nexus/protocol.py:102-131 | exactly which dicts decode to evidence, under which keys and names, and to which |
| Protocol.TaskDecodes | python/src/nexus/protocol.py:149-176 | exactly which payloads decode to a task, and to which |
| Protocol.ResultDecodes | python/src/nexus/protocol.py:187-207 | exactly which payloads decode to a result, and to which |
| Protocol.ErrorDecodes | python/src/nexus/protocol.py:225-232 | exactly which payloads decode to an error, and to which |
| Protocol.EvidenceRoundTrip | python/src/nexus/protocol.py:108-131 | encoding evidence loses nothing, whatever the clock says on decoding |
| Protocol.EvidenceListRoundTrip | python/src/nexus/protocol.py:195-206 | nor does encoding a list of it |
| Protocol.TaskRoundTrip | python/src/nexus/protocol.py:153-176 | decoding a task payload returns the task |
| Protocol.ResultRoundTrip | python/src/nexus/protocol.py:191-207 | decoding a result payload returns the result |
| Protocol.ErrorRoundTrip | python/src/nexus/protocol.py:217-232 | decoding an error payload returns the error |
| StableSort.SortOrders | python/src/nexus/trust.py:93 | the sort is ordered by non-increasing key and a permutation of its input |
| StableSort.SortIsStable | python/src/nexus/trust.py:93 | equal keys keep their input order |
| StableSort.StableOrderUnique | python/src/nexus/trust.py:93 | order and stability determine the result |
| StableSort.HeadIsLeftmostMax | python/src/nexus/trust.py:92-93 | the head of the sorted list is the leftmost element of greatest key |
| Trust.StrengthInUnit | python/src/nexus/trust.py:39-50 | with weights in [0,1] the strength is in [0,1] |
| Trust.EntryStrength | python/src/nexus/trust.py:24-50 | one entry is its confidence times the custom weight of its transformation, one half if not listed, or by default 1, 9/10, 7/10 and 1/2 |
| Trust.StrengthPermutation | python/src/nexus/trust.py:39-50 | the order of the evidence does not matter |
| Trust.StrengthMonotone | python/src/nexus/trust.py:39-50 | raising confidences never lowers the strength |
| Trust.StrengthOfJoinedPools | python/src/nexus/trust.py:39-50 | joined pools have their length-weighted mean, between the two |
| Trust.EvaluateIgnoresOthers | python/src/nexus/trust.py:66-89 | other agents' evidence, inserted anywhere, changes nothing |
| Trust.ScoreInUnit | python/src/nexus/trust.py:69-78 | every score is in [0,1], and 0 without own evidence, for any weights |
| Trust.ScoreExactly | python/src/nexus/trust.py:69-89 | with own evidence: the strength of all of it, less 1/20 for each of the first ten recurrences, cut off at 0 and 1; sample size, penalty and average confidence |
| Trust.RankOrders | python/src/nexus/trust.py:91-93 | a ranking has the scores of the agents asked, greatest first, equal ones in the order asked |
| Trust.RecurrencesOnlyLower | python/src/nexus/trust.py:76-78 | more recurrences never raise a score, and from ten on change nothing |
| Trust.PenaltyAtMostHalf | python/src/nexus/trust.py:76-78 | the score is within one half below the raw score iff the raw score is at most 3/2, so always with weights in [0,1] |
| Trust.ClampTakesOne | python/src/nexus/trust.py:76-78 | an entry of weight 2 and full confidence scores 1 of a raw 2 |
| Arbitration.ArgMax | python/src/nexus/arbitration.py:100-103 | the running maximum is the leftmost maximum of (strength, trust) |
| Arbitration.VerdictCharacterised | python/src/nexus/arbitration.py:68-120 | raises iff there is no candidate; it agrees iff all outputs equal the first, whose candidate then wins, else the leftmost maximum does; all candidates are described in order by evidence strength and score on the history |
| Arbitration.TrustBreaksTies | python/src/nexus/arbitration.py:56-103 | in a disagreement the winner has the strongest evidence; no candidate of the same strength has a greater score on the history, and none before it an equal one |
| Arbitration.HistoryMovesWin | python/src/nexus/arbitration.py:58-103 | two disagreeing agents without evidence, of which two histories crown one and the other |
| Arbitration.ReasoningCharacterised | python/src/nexus/arbitration.py:79-115 | the reason given: a lone answer, the number of agreeing ones, or for a disagreement a tie iff another candidate has the winner's evidence strength |
| Arbitration.LosersDoNotMatter | python/src/nexus/arbitration.py:87-103 | deleting a loser never changes the winning output |
| Arbitration.LosersDoNotUnseat | python/src/nexus/arbitration.py:87-103 | it keeps the winning candidate iff the rest still disagrees, the pool agreed anyway, or the winner is first among the rest |
| Arbitration.LoserUnseatsWinner | python/src/nexus/arbitration.py:87-103 | three answers of which deleting the losing second one moves the win from the third to the first |
| Arbitration.NewcomerWinsIff | python/src/nexus/arbitration.py:97-103 | a newcomer at any position of a disagreeing pool wins iff its key is greater, or equal and it stands earlier |
| Arbitration.WeakerAnswersDoNotMatter | python/src/nexus/arbitration.py:97-103 | appending any number of answers with keys not greater changes nothing |
| Arbitration.RepetitionCarriesNoWeight | python/src/nexus/arbitration.py:1-19 | repeating answers never changes the winner: no voting |
| Arbitration.HistoryOnlyBreaksTies | python/src/nexus/arbitration.py:97-103 | winners under any two histories carry the same, maximal, evidence strength |
| Audit.AuditLog.constructor | python/src/nexus/audit.py:76-77 | a new log is empty |
| Audit.AuditLog.Append | python/src/nexus/audit.py:79-86 | exactly one event, chained to the head, is added; the log verifies after iff it did before |
| Audit.AuditLog.Verify | python/src/nexus/audit.py:91-106 | accepts iff every event chains to the one before and has the hash of its fields |
| Audit.AppendKeepsVerification | python/src/nexus/audit.py:79-106 | append preserves and reflects verification |
| Audit.ChainFromGenesis | python/src/nexus/audit.py:29-106 | in a log that verifies the first event chains to 64 zeros, each other one to the hash of all fields of the one before |
| Audit.FindBreak | python/src/nexus/audit.py:36-50 | from two different verifying logs with one head: two records or texts with one image, or a text hashing to the genesis value |
| Audit.PrefixVerifies | python/src/nexus/audit.py:91-106 | every prefix of a verifying log verifies |
| Audit.DeletionSeenIff | python/src/nexus/audit.py:91-106 | deleting a run of events is unseen iff it is the end, or the hash to chain to is the same before and after |
| Audit.ReplacementSeenIff | python/src/nexus/audit.py:91-106 | replacing an event is unseen iff the new one is hashed right, chains back, and (unless last) has the old hash |
| Audit.UnseenReplacementBreaksHash | python/src/nexus/audit.py:91-106 | an unseen replacement before the last event yields a hash break |
| Policy.GateFailsClosed | python/src/nexus/policy.py:58-81 | a task passes iff its risk is mapped to allow, or it needs approval (also when unmapped) and an approver there is grants it; the approver's exception gets out iff it is asked and raises |
| Policy.DecisionGrounds | python/src/nexus/policy.py:58-81 | which reason each decision gives, and that it carries the risk of the task |
| Policy.DefaultLetsThrough | python/src/nexus/policy.py:31-81 | the default policy lets through exactly tasks of no, low or medium risk and those an approver grants, which is asked only about the others |
| Policy.ConflictGateFailsClosed | python/src/nexus/conflict_policy.py:56-70 | agreement passes unasked, a disagreement iff there is an approver that grants it; each decision and its reason |
| Agents.HandleOutcomes | python/src/nexus/agent.py:72-98 | for each outcome of Agent.handle, exactly which returns and exceptions of the handler lead to it, and what it carries |
| Agents.RegistryKeepsDistinct | python/src/nexus/core.py:146-150 | registering and unregistering keep ids distinct and have their effect |
| Agents.RegisteringPlaces | python/src/nexus/core.py:146-147 | a known id keeps its place and gets the new agent, a new one goes to the end |
| Agents.UnregisteringPlaces | python/src/nexus/core.py:149-150 | the agent of that id goes, the others stay in order; an unknown id changes nothing |
| Orchestrator.NexusCore.constructor | python/src/nexus/core.py:110-128 | a new core has no agents, no trace and no edges |
| Orchestrator.NexusCore.Register | python/src/nexus/core.py:146-147 | the agent takes its id's place or is added last, and nothing else changes |
| Orchestrator.NexusCore.Unregister | python/src/nexus/core.py:149-150 | the agent is gone, and nothing else changes |
| Orchestrator.NexusCore.Record | python/src/nexus/core.py:130-133 | the envelope is appended to the trace and, if there is a log, to the log |
| Orchestrator.NexusCore.EvidenceOnRecord | python/src/nexus/core.py:135-144 | the loop yields the specified evidence pool or the first exception |
| Orchestrator.NexusCore.BestOf | python/src/nexus/core.py:231-241 | the best-score loop starting at -1 finds the leftmost maximal score |
| Orchestrator.NexusCore.ChooseAgent | python/src/nexus/core.py:225-241 | the agent chosen is the specified one, lessons looked up for each candidate |
| Orchestrator.NexusCore.ServeTask | python/src/nexus/core.py:242-284 | edges, handler call and reply are exactly those specified, for every outcome of the handler |
| Orchestrator.NexusCore.Route | python/src/nexus/core.py:163-284 | the whole new state and exit equal the specification, and the step of a run for this call |
| Orchestrator.NexusCore.DispatchSequential | python/src/nexus/core.py:301-311 | the result map is the specified one; handlers after an uncaught exception do not run |
| Orchestrator.NexusCore.DispatchParallel | python/src/nexus/core.py:313-326 | under every order in which handlers finish, the result map is the sequential one; all handlers run |
| Orchestrator.NexusCore.Bookkeep | python/src/nexus/core.py:447-466 | candidates and edges are those specified, in pool order |
| Orchestrator.NexusCore.JudgeCandidates | python/src/nexus/core.py:468-503 | quorum, arbitration, conflict gate and verdict are exactly as specified |
| Orchestrator.NexusCore.Debate | python/src/nexus/core.py:328-503 | the whole new state and exit equal the specification and the step of a run for this call, for either dispatcher |
| Records.PairedUnlessEscaped | python/src/nexus/core.py:163-284 | after any run each reply directly follows its task, correlated and for that task; all tasks are answered iff no call ended by an escaped exception |
| Records.ErrorReplyTask | python/src/nexus/core.py:248-262 | when an error reply carries the task's id: always the core's own, a handler's iff it was made so |
| Records.AuditMatchesTrace | python/src/nexus/core.py:130-133 | an audit log attached from the start equals the trace entry for entry, with the type name, sender, time and a fresh id of each, and verifies, after every run |
| Records.EnvelopeIdsDistinct | python/src/nexus/core.py:163-503 | in every run no two recorded envelopes share an id, if fresh ids differ |
| Records.HeadCommitsToTrace | python/src/nexus/audit.py:36-50 | two runs with one log head and different traces yield a hash break |
| History.ResultEvidence | python/src/nexus/core.py:139-144 | the payload encoding is lossless for evidence |
| History.HistoryIsContributions | python/src/nexus/core.py:135-144 | after any run the evidence pool is the evidence of exactly the results returned and the debate winners, in call order |
| Routing.RouteSelection | python/src/nexus/core.py:225-241 | the pick is the leftmost maximal score; the first match with trust off or equal scores; the head of the ranking without lessons |
| Routing.RoutedInRuns | python/src/nexus/core.py:188-247 | of the registered agents that handle the objective a run's route call runs the handler of the first with trust off, else of the first with the greatest score on the evidence of earlier returned and winning results and the ledger's recurrences; nobody's if there is none or the policy stops the task |
| Routing.RecurrencesNeverHelp | python/src/nexus/core.py:233-241 | if only others' lessons get worse the pick stays |
| Routing.LessonMovesPick | python/src/nexus/core.py:233-241 | two agents of equal evidence, of which one lesson moves the pick from the first to the second |
| Gates.ServeDraws | python/src/nexus/core.py:242-281 | route draws one routed_to edge, and for an answer its produced_result and supported_by edges; it runs one handler |
| Gates.GatedIff | python/src/nexus/core.py:188-190 | a task is stopped iff there is a policy, its risk is not mapped to allow and no approver grants it |
| Gates.CallIsGated | python/src/nexus/core.py:188-205 | any call from any state: without a task, or with one the policy does not allow then, no handler runs and no edge is drawn; else only handlers for its own task run and only edges touching it are drawn, none without a handler run |
| Gates.RunIsGuarded | python/src/nexus/core.py:188-205 | in every run a handler runs only for a task the policy allowed at that moment |
| Gates.EdgesAreGuarded | python/src/nexus/core.py:425-450 | every edge of a run was drawn by a call for its own task, allowed by the policy then, that ran a handler for it, also when task ids repeat |
| Gates.EdgesStay | python/src/nexus/core.py:243-281 | edges of a prefix of a run stay in place |
| Gates.EvidenceNodesFresh | python/src/nexus/core.py:275-281 | in every run each piece of evidence gets a node of its own |
| Gates.DefaultPolicyHolds | python/src/nexus/policy.py:31-37 | under the default policy without an approver no run invokes a handler for a high-risk or critical task |
| Requests.RouteCarriesRequest | python/src/nexus/core.py:163-247 | in any state: a risk that is no level is refused before anything happens; else the recorded task has the objective, input, constraints, risk and id asked for, and the handler gets that task |
| Requests.DebateCarriesRequest | python/src/nexus/core.py:408-445 | in any state: without an arbiter or with such a risk nothing happens; else the recorded task is the one asked for, without constraints, and every handler gets that task |
| Pools.DispatchedIff | python/src/nexus/core.py:408-439 | a debate is dispatched iff there is an arbiter, the risk is a level, the policy lets the task through, and some registered agent handles the objective and is on the list given |
| Pools.AskedInOrder | python/src/nexus/core.py:431-439 | the agents asked are all those handling the objective and on the list, within the limit, each at the place given by how many are registered before it; how many for any limit, negative ones included |
| Pools.DebateRuns | python/src/nexus/core.py:301-445 | in any state the handlers run are exactly those agents', on the recorded task, without threads up to the first uncaught exception |
| Debates.DebateFollowsPlan | python/src/nexus/core.py:408-445 | a debate that is not dispatched runs no handler, draws no edge and returns no verdict; an exception escapes from it iff the approver raises over its task |
| Debates.ParallelMatchesSequential | python/src/nexus/core.py:361-372 | threads give the same exit iff the debate is not dispatched or some candidate is left; then the same trace, log and graph |
| Debates.SomeCandidateLeft | python/src/nexus/core.py:438-439 | a limit of at least one, or none, leaves some candidate |
| Debates.DispatchCompletes | python/src/nexus/core.py:301-326 | a dispatch completes iff no handler raises an uncaught exception |
| Debates.PublishDecides | python/src/nexus/conflict_policy.py:56-70 | a verdict is published and recorded iff the candidates agreed, no conflict policy is set, or an approver there is grants it; if that approver raises nothing happens but its exception; otherwise the verdict is blocked |
| Debates.DecidedIff | python/src/nexus/core.py:442-503 | exactly when a dispatched debate returns a verdict, and that it is the arbiter's on exactly the answers given, in pool order |
| Debates.VerdictIsSound | python/src/nexus/core.py:431-503 | the winner was eligible, asked and gave the winning result; quorum, limit and both gates hold |
| Debates.VerdictsInRuns | python/src/nexus/core.py:431-503 | over any run the verdict rests on the answers given and on the evidence of earlier returned and winning results; winner, quorum, limit and both gates are as they should be |
| Exits.RouteExits | python/src/nexus/core.py:163-284 | how a route call of a run ends: with nothing recorded for a bad risk; else with the approver's exception, with the uncaught exception of the handler it goes to, or a reply saying what that handler came to, or that the policy blocked the task or nobody handles it |
| Exits.RouteEscapesIff | python/src/nexus/core.py:188-284 | an exception escapes route iff the approver is asked and raises, or the task goes to an agent whose handler raises one that is not caught |
| Exits.RoutedIff | python/src/nexus/core.py:188-241 | the task goes to an agent iff the policy allows it and somebody handles its objective |
| Exits.DebateExits | python/src/nexus/core.py:408-503 | how a debate of a run ends, in terms of the gates and of what approvers and the handlers asked come to: which refusal with which fault, which escaped exception, or which verdict |
| Exits.DebateEscapesIff | python/src/nexus/core.py:425-486 | an exception escapes a debate iff the approver raises over its task, or it is dispatched and some handler's is not caught, threads have nobody to run, or the conflict approver raises over the verdict on enough answers |
| Exits.DeclinedOnRecord | python/src/nexus/core.py:416-486 | a declined debate records its task and one error reply: policy_blocked, capability_unavailable, no_usable_candidate, quorum_not_met or conflict_not_approved, by the fault |
| Exits.DecidedOnRecord | python/src/nexus/core.py:488-503 | a debate with a verdict records its task and the winning result, sent as the winner and correlated to the task, nothing else |
| Exits.TraceIsPaired | python/src/nexus/core.py:163-503 | after any run each reply directly follows its task, correlated and for that task; all tasks are answered iff no approver raised over a task or verdict, no task met a handler whose exception is not caught, and no threaded debate was left without candidates |
| Exits.CrashLeavesTask | python/src/nexus/core.py:246-256 | the smallest run that leaves a task unanswered |
| Exits.ApproverLeavesTask | python/src/nexus/core.py:186-190 | a run of one call, on a core without agents, whose task a raising approver leaves unanswered |
| Exits.ConflictApproverLeavesTask | python/src/nexus/core.py:480-486 | two disagreeing agents and a raising conflict approver: the task stays unanswered though both answered |
| Exits.NobodyLeftToAsk | python/src/nexus/core.py:313-326 | with max_candidates 0 the threaded debate raises from the executor and the sequential one is declined |
| Exits.ForeignErrorSent | python/src/nexus/core.py:256-262 | an error a handler hands back for another task is sent as it is |
| Graph.PoolKinds | python/src/nexus/core.py:447-466 | one routed_to edge per agent asked, one produced_result per answer, one supported_by per piece of evidence, each in order, and no other |
| Graph.RouteDraws | python/src/nexus/core.py:242-281 | route draws the same edges for the one agent it goes to |
| Graph.DebateDraws | python/src/nexus/core.py:447-494 | a dispatched debate from which no exception escapes, or only the conflict approver's, draws those edges, and one won edge at the end iff it returns a verdict |
| Graph.AbandonedDrawsNothing | python/src/nexus/core.py:425-486 | in any run a debate ended by an escaped exception draws nothing, unless it is the conflict approver's and there is a graph |
| Graph.ConflictBreakDraws | python/src/nexus/core.py:447-486 | then it has drawn all edges of its dispatch and no won edge |
| Graph.WinnerOnRecord | python/src/nexus/core.py:488-494 | in any run the one won edge goes to the winner, which has routed_to and produced_result edges of the same call |
| Lessons.Signatures | python/src/nexus/adapters/lessons.py:160-162 | the listed signatures are those on file, by sorted file name |
| Lessons.LessonStore.constructor | python/src/nexus/adapters/lessons.py:103-105 | a new store is empty |
| Lessons.LessonStore.Record | python/src/nexus/adapters/lessons.py:107-138 | accepted iff the correction is not vague and names a mechanism, else nothing changes; a known signature gets one recurrence more and keeps the rest, a new one a lesson with the fields of the call, its layer or Guides, its rule or the symptom, and its agent |
| Lessons.StoreClosedForm | python/src/nexus/adapters/lessons.py:107-138 | after any calls a signature is on file iff accepted once, with the text, mechanism, layer, rule, cause, date and agent of its first accepted call and one recurrence for each further one |
| Lessons.ReportedAre | python/src/nexus/adapters/lessons.py:111-123 | the accepted calls of a signature: correction not vague and with a mechanism, and the symptom's slug |
| Lessons.RecurrencesAreRepeats | python/src/nexus/adapters/lessons.py:107-144 | recurrences_for an agent is the number of repeats of the signatures whose first accepted call names it, from the calls alone |
| Lessons.ReportedTwice | python/src/nexus/adapters/lessons.py:107-144 | one report made twice is one recurrence of its agent |
| Lessons.SignaturesListed | python/src/nexus/adapters/lessons.py:160-162 | each signature is listed once |
| Lessons.LedgerConservation | python/src/nexus/adapters/lessons.py:107-144 | lessons plus recurrences are the accepted calls; an agent's recurrences are the accepted calls on its lessons less the number of those lessons |
| Digest.CompileDigest | python/src/nexus/adapters/lessons.py:164-213 | the loops yield the specified lines, whose blocks are those of the lessons shown, in order and under their layers, and whose totals count lessons and repeated ones |
| Digest.DigestReadsBack | python/src/nexus/adapters/lessons.py:164-213 | reading any digest's lines gives back exactly the blocks of the lessons shown and the totals |
| Digest.BlockTellsLesson | python/src/nexus/adapters/lessons.py:191-207 | a block determines its lesson but for signature and agent |
| Digest.BlockShows | python/src/nexus/adapters/lessons.py:191-207 | which line of a block shows which field of its lesson |
| Digest.DigestHeadings | python/src/nexus/adapters/lessons.py:169-189 | the opening lines with and without lessons; headings of exactly the layers with a lesson, in the order of the list |
| Digest.DigestShowsStore | python/src/nexus/adapters/lessons.py:164-207 | for a store built by record, the digest's blocks are those of all lessons on file, each once, in the order of layers, by non-increasing recurrences, equal ones in store order |
| Digest.ShownExactly | python/src/nexus/adapters/lessons.py:180-190 | among the lessons shown each lesson of a listed layer is as often as on file, no other |
| Digest.RecordedStoreShownWhole | python/src/nexus/adapters/lessons.py:119-190 | of a store built by record the lessons shown are all lessons on file |
| Digest.RecordedLessonsDistinct | python/src/nexus/adapters/lessons.py:122-138 | no lesson is on file twice |
| Digest.ShownInOrder | python/src/nexus/adapters/lessons.py:184-190 | the lessons shown follow the list of layers, and recurrences do not increase within a layer |
| Digest.SectionIsStable | python/src/nexus/adapters/lessons.py:190 | equally repeated lessons keep the store's order |
| Digest.FooterCounts | python/src/nexus/adapters/lessons.py:209-213 | the totals line of the digest counts the accepted signatures and those accepted more than once |
| A2A.FindData | python/src/nexus/a2a.py:110-114 | the loop finds the first part with structured data |
| A2A.FirstDataIsFirst | python/src/nexus/a2a.py:110-114 | that is the data of the first such part |
| A2A.TaskMessageRoundTrip | python/src/nexus/a2a.py:82-124 | a task comes back unchanged iff its id is not empty; an empty id becomes the fresh one |
| A2A.TaskWritten | python/src/nexus/a2a.py:82-102 | a task is written under its id in the given context, input and optional keys only if it has them |
| A2A.MessageDecodes | python/src/nexus/a2a.py:105-124 | exactly which messages decode to a task, and to which, a missing or empty id replaced by the fresh one |
| A2A.EvidenceArtifactRoundTrip | python/src/nexus/a2a.py:132-149 | evidence comes back unchanged |
| A2A.MergeParts | python/src/nexus/a2a.py:222-224 | the loop updates the output with each part in order |
| A2A.CollectArtifacts | python/src/nexus/a2a.py:216-224 | the loop gathers the specified output and evidence or the first exception |
| A2A.TaskToOutcome | python/src/nexus/a2a.py:195-232 | the decoder equals its specification |
| A2A.ResultWritten | python/src/nexus/a2a.py:157-176 | the task written is REJECTED iff the result is refused, else COMPLETED, in the given context, with the output in the first artifact and one extension artifact per piece of evidence |
| A2A.ResultOutcomeRoundTrip | python/src/nexus/a2a.py:157-232 | a result comes back unchanged for every status, confidence and order of evidence |
| A2A.ErrorOutcomeRoundTrip | python/src/nexus/a2a.py:179-208 | an error comes back unchanged, in the context given |
| A2A.StateDecidesKind | python/src/nexus/a2a.py:195-210 | the state decides between raising, an error and a result, and with the metadata exactly which status |
| A2A.CollectLaw | python/src/nexus/a2a.py:211-224 | collecting raises iff some evidence artifact is malformed; else each key has its last definition and the evidence is that of the evidence artifacts in order |
| A2A.DecodeLaw | python/src/nexus/a2a.py:195-232 | exactly when a terminal, not failed task decodes, and that then nothing in it is dropped but overwritten keys, with id, status and confidence as it carries them |
| A2A.FailedLaw | python/src/nexus/a2a.py:201-208 | exactly when a failed task decodes, and to which error |
| A2A.CanceledSuccessIff | python/src/nexus/a2a.py:210 | a canceled task decodes to a success iff its metadata give no status or that one |
| A2A.CanceledBecomesSuccess | python/src/nexus/a2a.py:210 | a canceled task with nothing but an id is one |

## Left out

- Wall-clock timeouts of `debate`: a handler that runs out of time is a handler whose outcome is a
  timeout; how long either dispatcher waits is not modelled.
- Handlers and approvers that call back into the core, and graph, audit or lesson stores that raise.
- Trust evaluators, arbiters and policies other than the repository's own.
- Handlers that share state with others of the same threaded dispatch: what a handler returns
  depends on its task and the moment of the dispatch.
- SHA-256, JSON text and UUID generation: arbitrary functions and given ids.
- Floating-point rounding: scores are exact reals.
- Timestamps, protocol version, receiver and the fields `validate_envelope` checks, which the core's
  own envelopes always have.
- JSON values whose type is not the one a field declares: decoding raises `IllTyped`, where Python
  keeps the value. Results, errors and evidence a handler returns have fields of their declared types.
- Aliasing: payloads are values, while the original shares dicts between trace, audit and callers.
- Message texts of errors and verdicts, and the wording of digest lines; a digest line is a value
  saying what it shows.
- Contents and write faults of files, symbolic links, and readers that meet a half-written inbox file;
  sending is one step.
- Filesystem.FilesystemTransport.Complete: says nothing of a caller that holds no claim when others
  interfere; the code does not check the owner.
- Filesystem.FilesystemTransport.Release: the same.
- The detectors of vague corrections and mechanisms and the slug function: arbitrary functions.
- Agent cards, registries, vendor adapters, the HTTP transport, `is_claimed` and `doctor`: mappings and
  wrappers without a deep property.
