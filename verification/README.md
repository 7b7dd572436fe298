# The fleet's command protocol, projection and log reads, in Dafny

The fleet control plane lets an operator start and stop projects on remote
hosts. It keeps a ledger of commands and a projection of what each host
manages; an agent on each host receives commands, keeps a durable journal,
calls the local lifecycle and publishes what came of it, and answers bounded
reads of log files. This project models those parts and proves what they
promise.

- **Protocol.** `World` is one transition system: the ledger, any number of
  hosts, the network between them. Messages may be lost, repeated or late; a
  host may crash between any two steps; a journal write that fails may still
  have reached the disk, so a host carries every content a crash may reveal.
  `Ledger` and `Journal` give each transaction and each journal update as a
  function. `Invariants`, `LedgerSteps`, `HostSteps` and `AtMostOnce` carry the
  joint invariant; `Outcomes` and `JournalRuns` add where results come from and
  how entries grow. `Scheduling` puts the promise queues of `Queues` over the
  hosts. The classes `CommandTables`, `CommandJournal`,
  `LocalLifecycleAdapter` and `CommandExecutor` work step by step as the
  services do, and are proved to be those functions and steps.
  `LedgerDecisions` says over the rows and the clock alone when each ledger
  operation accepts, refuses, times out or prunes; `JournalHistory` says what an
  entry holds from the changes it went through; `Evidence` what a result shows.
- **Projection.** `Fleet` is enrollment, sessions and the inventory projection
  beside the ledger; `FleetRuns`, `FleetProofs`, `FleetObservation` and
  `FleetTheorems` carry its invariants over all runs, `FleetNaming` its project
  identifiers, `FleetService` its tables. `FleetFencing` tells tokens, sessions
  and connections from the requests before them; `FleetProjection` says what a
  page of an inventory is refused for and what it leaves. `Scope` and
  `ScopeWarnings` decide which projects watch the same tracker source. `Paging`
  cuts an inventory into pages and delivers them; `JsonBytes` measures what is
  printed.
- **Log reads.** `Utf8`, `LocalRead`, `LogFollow` and `LogCursor` are the chunk
  reader and its cursors; `RunLog` is the browser's model of one log,
  `RunLogHistory` tells it from its events, and `LogWatch` joins it to the
  reader.
- **Canonical JSON.** `Json`, `JsonRoundTrip` and `JsonCanonical` prove the
  printer that decides "same result" to be injective up to property order.

Secrets, digests, cursors' signatures and fresh identifiers are abstract values
that no two differ in without being different; clock readings, answers of the
host and endings of writes are parameters. `dafny verify dfyconfig.toml` checks
the project.

## Findings

Four properties the code does not meet, each with an input and the exact
condition under which it holds.

- **A claim may be judged in time and stamped too late.** `claim` reads the
  clock to judge expiry and again to stamp the row
  (`packages/fleet-control-plane/src/commands.ts:471-516`). Between the two the
  deadline may pass; the record schema then refuses the row, the claim fails and
  the command stays accepted past its deadline until the next recovery.
  `LedgerClock.ALateStampIsRefused` is such a run;
  `LedgerClock.RunsRefuseOnlyLateStamps` shows that under a monotone clock
  nothing else is ever refused by the schema.
- **A byte order mark at the head of a chunk is lost.** Each chunk is decoded by
  a fresh decoder, which drops one mark
  (`packages/management-agent/src/local-read.ts:177-190`).
  `LogFollow.AMarkIsLost` is such a file; `LogFollow.ChunkedEqualsWhole` gives
  the condition.
- **Reads below twelve bytes may never advance.** The request schema admits
  limits from one (`packages/management-protocol/src/schemas.ts:292`), but four
  malformed bytes may need twelve
  (`packages/management-agent/src/local-read.ts:216-221`).
  `LogFollow.StubbornStops` is such a file for every limit from one to eleven;
  `LogFollow.ProgressNeedsTwelve` gives the condition.
- **A log that grows between being measured and being read may refuse what
  fits.** Past the measured size every probe of the binary search flushes the
  decoder, so a shorter probe may be larger than a longer one and the search
  stops short (`packages/management-agent/src/local-read.ts:161-190`).
  `LocalRead.GrownReadRefused` is such a read; `LocalRead.SearchNeedsMeasured`
  gives the condition. From twelve bytes on such a read still advances
  (`LogFollow.TwelveBytesAdvance`).

## Model

| member | source | states |
|---|---|---|
| AtMostOnce.InvokedAtMostOnce | packages/management-agent/src/executor.ts:74-196 | In every execution (lost, repeated or late messages, failed or ambiguous journal writes, crashes, transfer, closure, pruning on both sides) the lifecycle is invoked at most once for a command over all hosts, and the driver is asked to start or stop at most once for it. |
| AtMostOnce.UnclaimedNeverInvoked | packages/fleet-control-plane/src/commands.ts:187-213 | A command the ledger shows as accepted or expired was never invoked anywhere. |
| AtMostOnce.OutcomeIsAgreedForever | packages/fleet-control-plane/src/commands.ts:530-586 | Once the ledger shows succeeded or failed, then at that and every later moment the ledger keeps state, evidence and diagnostic, and every content a crash may reveal of the owner's journal holds the same outcome, unless the receipt was pruned. |
| AtMostOnce.SignalsUseTheDurableTarget | packages/management-agent/src/lifecycle.ts:111-191 | A stop signal is sent only to the target that every content of the journal already names, only on an unpruned receipt, and at most once for a command. |
| AtMostOnce.ResultsAreNeverReplaced | packages/management-agent/src/journal.ts:162-182 | The executor never meets the refusal to replace a durable result: whenever it saves, the journal accepts. |
| AtMostOnce.NoPermissionAfterPruning | packages/management-agent/src/journal.ts:196-211 | An effect marker is only ever set on a command this host never pruned; a second receipt of a pruned command gets no permission. |
| JournalRuns.EntriesOnlyGrow | packages/management-agent/src/journal.ts:121-211 | In every execution, an entry that every content of a journal shows is at every later moment pruned, or shown grown by every content: claim time, effect marker, stop target, verified result and retirement are never lost or rewritten, through ambiguous writes, crashes and pruning. |
| Outcomes.SuccessRestsOnInspection | packages/management-agent/src/lifecycle.ts:192-269 | In every execution, whatever the ledger shows as succeeded was saved by a step resting on an inspection: running and ready for a start; for a stop, stopped with its locks released and the journaled target seen to have exited. |
| Outcomes.JournaledSuccessRestsOnInspection | packages/management-agent/src/executor.ts:118-186 | The same of every succeeded result in every content of every journal, by the host that saved it. |
| Outcomes.OutcomesWereSaved | packages/management-agent/src/executor.ts:186-195 | Every outcome the ledger ever shows was saved by some host's step with this state, evidence and diagnostic. |
| Journal.GrowsTransitive | packages/management-agent/src/journal.ts:290-351 | Growth of entries composes over any number of updates. |
| Journal.RecordClaimGrows | packages/management-agent/src/journal.ts:121-134 | Recording a claim keeps what a load demands of an entry and rewrites no claim time. |
| Journal.BeginEffectGrows | packages/management-agent/src/journal.ts:135-145 | The effect marker is set exactly when there is neither a marker nor a result, and only once. |
| Journal.PersistStopTargetGrows | packages/management-agent/src/journal.ts:146-161 | A stop target is written once; the changed entry loads again exactly when the target is valid. |
| Journal.SaveResultGrows | packages/management-agent/src/journal.ts:162-182 | A result goes only from none to any, from itself to itself, or from unknown to verified, which clears the acknowledgment. |
| HostSteps.SavingKeeps | packages/management-agent/src/journal.ts:224-259 | Saving a result keeps the joint invariant of ledger, hosts and network, however the write ends. |
| AtMostOnce.NextKeepsInv | packages/management-agent/src/executor.ts:74-196 | Every step of ledger, network and hosts keeps the joint invariant. |
| JournalHistory.EntryRemembers | packages/management-agent/src/journal.ts:121-195 | After any sequence of changes an entry holds the last claim taken, the first marker, the first stop target, the last result, the first receipt for that result and the first retirement. |
| JournalHistory.FinishedIsSettled | packages/management-agent/src/executor.ts:74-84 | Polling leaves an entry alone exactly once it was ever retired, or its verified result is acknowledged. |
| JournalHistory.PrunedAfterThirtyDays | packages/management-agent/src/journal.ts:196-211 | An entry is pruned exactly thirty days after it was retired or, not being retired, after its result, unless unknown, was acknowledged. |
| Evidence.EvidenceTells | packages/management-agent/src/executor.ts:254-279 | Two results carry the same evidence exactly when both or neither are verified and they show the same process, its identity as a digest. |
| Executor.CommandExecutor.StartRun | packages/management-agent/src/executor.ts:74-84 | A run starts inside an action whose turn has come: an entry that is retired, or whose result is acknowledged and not unknown, is left alone; any other sends its claim request as one enabled step. |
| Executor.CommandExecutor.ClaimFailed | packages/management-agent/src/executor.ts:85-101 | The receipt is retired, once, exactly on an expiry of a command neither claimed nor begun here whose write is durable; every other failure ends the run and leaves the entry as it was. |
| Executor.CommandExecutor.TakeClaim | packages/management-agent/src/executor.ts:102-108 | The reply is recorded durably before anything is decided on it, exactly when it is for this command and this agent and keeps the claim time; otherwise the run ends and the entry is as it was. |
| Executor.CommandExecutor.Granted | packages/management-agent/src/executor.ts:109-186 | From the claim reply to a durable result, a retired receipt or an exception, as a path of enabled steps. For every entry, reply, answer of the host and ending of each write: whether the reply is taken, the receipt retired, the effect begun, the lifecycle invoked, a result saved, and the exact result: what the host answered to the start, stop or inspection, unknown where it threw or where there is no permission, an old result kept unless an unknown one is now verified. |
| Executor.CommandExecutor.Execute | packages/management-agent/src/executor.ts:150-186 | Marker, effect, result in this order: invoked exactly when the marker is durable, saved exactly when the result also is, and then the result reports exactly what the adapter answered to this start or stop. |
| Executor.CommandExecutor.Resolve | packages/management-agent/src/executor.ts:140-149 | After an earlier effect, or without permission, nothing is invoked: the saved outcome is exactly what the inspection came to, or unknown without one. |
| Executor.CommandExecutor.Recover | packages/management-agent/src/executor.ts:118-129 | A retained result is kept unless it was unknown and the inspection verifies it; then exactly what the inspection answered is saved. |
| Executor.CommandExecutor.Publish | packages/management-agent/src/executor.ts:188-194 | An acknowledged result ends the run; any other is sent as the journal holds it. |
| Executor.CommandExecutor.Received | packages/management-agent/src/executor.ts:191-195 | The acknowledgment is journaled only for a received reply to that request; the first time of receipt is kept. |
| Executor.PathExtendsExecution | packages/management-agent/src/executor.ts:74-196 | Whatever paths the executor takes continue an execution, so what holds of every execution holds of it. |
| Scheduling.QueuesRefineExecutions | packages/management-agent/src/executor.ts:206-220 | With nothing but the promise queues to order runs, whatever executors, network and ledger do is an execution of the transition system, which presumes one run at a time for each project of a host. |
| Scheduling.OneRunForEachProject | packages/management-agent/src/executor.ts:206-220 | At no reachable moment do two commands of one project run on the same host. |
| Queues.OneAtATimeInOrder | packages/management-agent/src/lifecycle.ts:279-292 | At no time do two actions of a project run, and they start in the order requested, however they end and whenever tails are deleted. |
| Queues.StartsExactly | packages/management-agent/src/lifecycle.ts:279-292 | At every moment an action may start exactly when it is waiting and every earlier action of its project has settled: projects do not wait for one another and none waits for ever. |
| Queues.ClosingProceeds | packages/management-agent/src/registry.ts:280-328 | Closing goes on exactly when every write, and then every operation, has settled, and until then some operation can make a step. |
| Queues.NoStepAfterRelease | packages/management-agent/src/registry.ts:280-328 | Once the registry has released its lock every admitted write and owned operation has settled; none makes a step afterwards and none is admitted. |
| CommandJournal.CommandJournal.Update | packages/management-agent/src/journal.ts:224-259 | The file and memory change together, or memory stays and the disk may hold either content. |
| CommandJournal.CommandJournal.Receive | packages/management-agent/src/journal.ts:84-120 | A receipt is durable before it is seen; a repeated command finds its entry, a different one under the same identifier is refused. |
| CommandJournal.CommandJournal.RecordClaim | packages/management-agent/src/journal.ts:121-134 | The journal becomes exactly the specified write of the recorded claim. |
| CommandJournal.CommandJournal.BeginEffect | packages/management-agent/src/journal.ts:135-145 | The marker is durable exactly when the call says it started the effect. |
| CommandJournal.CommandJournal.PersistStopTarget | packages/management-agent/src/journal.ts:146-161 | The journal becomes exactly the specified write of the target. |
| CommandJournal.CommandJournal.SaveResult | packages/management-agent/src/journal.ts:162-182 | The journal becomes exactly the specified write of the result. |
| CommandJournal.CommandJournal.Acknowledge | packages/management-agent/src/journal.ts:183-190 | The journal becomes exactly the specified write of the acknowledgment. |
| CommandJournal.CommandJournal.Retire | packages/management-agent/src/journal.ts:191-195 | The journal becomes exactly the specified write of the retirement. |
| CommandJournal.CommandJournal.Prune | packages/management-agent/src/journal.ts:196-211 | The entries left are exactly those not completed by the cutoff, whatever their order. |
| CommandJournal.ParseState | packages/management-agent/src/journal.ts:290-351 | A file parses exactly when its identifiers are distinct and every entry is valid. |
| Lifecycle.LocalLifecycleAdapter.Start | packages/management-agent/src/lifecycle.ts:63-110 | Spawns at most once and exactly over a stopped project whose locks are released. Succeeds if and only if the project was already seen running, ready and valid, or the first deciding poll of the spawn shows it; fails, showing that inspection and its code, exactly on an invalid project, a process that is neither ready nor released, or a spawn that exited non-zero and was never seen ready; unresolved exactly where the wait runs out otherwise; in all other cases the call throws. |
| Lifecycle.LocalLifecycleAdapter.Stop | packages/management-agent/src/lifecycle.ts:111-191 | Persists the target, and only if that is durable signals exactly that target. Succeeds if and only if nothing was left to stop or the target was seen to have exited with the locks released; fails, showing which inspection and code, exactly on a changed folder, an unverified process, a missing runtime or a replaced target; a timeout or a target not seen to exit is unresolved, and in all other cases the call throws. |
| Lifecycle.LocalLifecycleAdapter.Reconcile | packages/management-agent/src/lifecycle.ts:192-240 | Spawns, signals and writes nothing; succeeds, fails or throws exactly under the stated conditions. |
| Lifecycle.Wait | packages/management-agent/src/lifecycle.ts:241-269 | Ends at the first poll that decides, throws or passes the deadline. |
| Lifecycle.WaitIsDetermined | packages/management-agent/src/lifecycle.ts:241-269 | The same answers never end the wait in two ways. |
| LedgerProofs.RunKeeps | packages/fleet-control-plane/src/commands.ts:342-360 | In every run of the ledger each project has at most one active command and each environment at most four, idempotency keys are unique and every row satisfies the record schema, by the submit checks alone. |
| LedgerProofs.NextShrinks | packages/fleet-control-plane/src/commands.ts:590-664 | No claim, result, transfer, closure, invalidation or pruning adds a row or moves one backwards, so none reactivates a slot. |
| LedgerProofs.ClaimAnswers | packages/fleet-control-plane/src/commands.ts:471-529 | A granted claim shows the row as stored, owned by its caller, never accepted or expired; an expiry answer means the row is expired; any other refusal changes nothing. |
| LedgerProofs.PublishAnswers | packages/fleet-control-plane/src/commands.ts:530-586 | An acknowledged result is the stored outcome; a refusal changes nothing. |
| LedgerProofs.RepublishIsNoOp | packages/fleet-control-plane/src/commands.ts:549-561 | Publishing again what the ledger reports changes nothing and is acknowledged. |
| LedgerProofs.OutcomeIsFinal | packages/fleet-control-plane/src/commands.ts:530-586 | No operation rewrites the state, evidence, diagnostic or completion of a settled row. |
| LedgerClock.RunsRefuseOnlyLateStamps | packages/fleet-control-plane/src/commands.ts:471-516 | In every run under a clock that never runs backwards, the schema refuses a save exactly when a claimable command is stamped after its deadline. |
| LedgerClock.ALateStampIsRefused | packages/fleet-control-plane/src/commands.ts:167-186 | A run that meets that refusal: the claim is rolled back and the command stays accepted past its deadline. |
| CommandService.CommandTables.SubmitCommand | packages/fleet-control-plane/src/commands.ts:268-397 | The tables become exactly what the submission transaction specifies, replays and refusals included. |
| CommandService.CommandTables.Claim | packages/fleet-control-plane/src/commands.ts:471-529 | The tables and the answer are exactly those of the claim transaction, with its two clock readings. |
| CommandService.CommandTables.PublishResult | packages/fleet-control-plane/src/commands.ts:530-586 | The tables and the answer are exactly those of the publication transaction; evidence is compared in its printed form. |
| CommandService.CommandTables.TransferOwnership | packages/fleet-control-plane/src/commands.ts:590-614 | The tables and the answer are exactly those of the transfer transaction. |
| CommandService.CommandTables.CloseUnresolved | packages/fleet-control-plane/src/commands.ts:435-470 | The tables and the answer are exactly those of the closing transaction. |
| CommandService.CommandTables.GetCommand | packages/fleet-control-plane/src/commands.ts:398-400 | After reading at a time, an executing command is unknown, with the timeout diagnostic, if and only if sixty seconds passed since its claim; an accepted one is expired if and only if its deadline passed; no other row changes. |
| CommandService.CommandTables.RecoverCommands | packages/fleet-control-plane/src/commands.ts:587-589 | The same of every row at once: unknown if and only if claimed sixty seconds ago, expired if and only if past its deadline, and otherwise unchanged. |
| CommandService.CommandTables.InvalidateEnvironment | packages/fleet-control-plane/src/commands.ts:615-625 | Exactly the accepted commands of the environment expire. |
| CommandService.CommandTables.InvalidateProject | packages/fleet-control-plane/src/commands.ts:626-638 | Exactly the accepted commands of the project expire. |
| CommandService.CommandTables.Prune | packages/fleet-control-plane/src/commands.ts:639-664 | Only rows past retention without a later audit leave, and audits of active rows stay. |
| CommandService.RowRoundTrip | packages/fleet-control-plane/src/commands.ts:102-141 | A record survives being written to its row and read back. |
| LedgerDecisions.SubmissionDecided | packages/fleet-control-plane/src/commands.ts:290-397 | A new command is accepted if and only if its target is known, enrolled, managed, supported, online under the credential in force and, for a start, valid, its project has no command holding the slot and its environment fewer than four; it then has thirty seconds. Each refusal of the target has its code. |
| LedgerDecisions.HeldSlotDecided | packages/fleet-control-plane/src/commands.ts:333-360 | A held slot refuses with what holds it: an unresolved command, or one under way. |
| LedgerDecisions.ReplayDecided | packages/fleet-control-plane/src/commands.ts:277-289 | A repeated key answers with the first command if project and operation are the same, and is refused otherwise. |
| LedgerDecisions.ClaimDecided | packages/fleet-control-plane/src/commands.ts:471-529 | An unclaimed command becomes executing if and only if its own session claims it for a project still managed, judged before its deadline and stamped no later than it; expiry is answered exactly to that session after the deadline. |
| LedgerDecisions.ReclaimDecided | packages/fleet-control-plane/src/commands.ts:471-529 | A claimed command answers exactly its owner, with the row as its deadlines leave it. |
| LedgerDecisions.PublicationDecided | packages/fleet-control-plane/src/commands.ts:530-586 | A result is taken if and only if the owner sends it, nothing was closed and no other outcome is verified; the row then shows it, completed at that time unless unknown. |
| LedgerDecisions.TransferDecided | packages/fleet-control-plane/src/commands.ts:590-614 | Another session of the owning agent takes a command over, and an executing one then becomes unknown. |
| LedgerDecisions.ClosingDecided | packages/fleet-control-plane/src/commands.ts:435-470 | Exactly an unknown outcome is closed, with a reason, once; the same reason again is answered again. |
| LedgerDecisions.InvalidationDecided | packages/fleet-control-plane/src/commands.ts:615-638 | Exactly the accepted commands of the environment, or of the project, expire. |
| LedgerDecisions.PruningDecided | packages/fleet-control-plane/src/commands.ts:639-664 | A command leaves if and only if it ended at least ninety days ago and nothing was audited of it since; the others stay. |
| LedgerDecisions.EveryChangeIsCaused | packages/fleet-control-plane/src/commands.ts:187-213 | In whatever operation, every row is as it was or the operation accounts for it: a deadline, a claim, a result, a transfer, a closure or an invalidation. |
| LedgerDecisions.EveryChangeIsAudited | packages/fleet-control-plane/src/commands.ts:150-166 | Every row whose state changes is audited with its new state at the time of the operation. |
| LedgerDecisions.TimeoutsWereDue | packages/fleet-control-plane/src/commands.ts:187-213 | In every run, a row that shows the timeout diagnostic as its own was claimed at least sixty seconds before the operation that wrote it. |
| LedgerDecisions.ClaimsWereDue | packages/fleet-control-plane/src/commands.ts:471-529 | In every run, a claimed row was claimed by its session before its deadline. |
| JsonCanonical.CanonicalForm | packages/fleet-control-plane/src/json.ts:2-11 | Two well-formed values print alike if and only if they are equal up to the order of object properties, at every depth. |
| JsonCanonical.ParsePrint | packages/fleet-control-plane/src/json.ts:2-11 | The printed text of every well-formed value parses back to the value in normal form (RFC 8259, sections 2 to 7). |
| JsonCanonical.PrintsAscending | packages/fleet-control-plane/src/json.ts:2-11 | An object prints exactly its defined properties, each once, in ascending order of their names, code unit by code unit. |
| JsonCanonical.PrintOfNormal | packages/fleet-control-plane/src/json.ts:2-11 | What was stored as printed text and read back prints the same text again. |
| FleetTheorems.AcceptedCommandsTargetManagedProjects | packages/fleet-control-plane/src/observations.ts:391-454 | At every moment of every run of enrollment, sessions, projection and ledger, every accepted command targets a project managed under the currently enrolled agent and not reported unmanaged. |
| FleetTheorems.ManagedIsTheLastRevision | packages/fleet-control-plane/src/observations.ts:431-461 | The managed projects of an environment are always those of its last completely received revision, at most a hundred. |
| FleetTheorems.OnlyCompletionChangesManaged | packages/fleet-control-plane/src/observations.ts:338-463 | Only a page that completes its revision changes what is managed, and then each page of the revision arrived exactly once, in whatever order. |
| FleetTheorems.TokensAreRedeemedOnce | packages/fleet-control-plane/src/enrollment.ts:219-275 | Two enrollments of one run never redeem the same token. |
| FleetTheorems.EnrollmentAndSessionsAreFenced | packages/fleet-control-plane/src/sessions.ts:109-200 | At every moment a credential exists exactly while its environment is enrolled, a session belongs to the enrolled agent, online means enrolled and heard from, revoked means offline, and applied sequence numbers strictly increase for each session. |
| FleetTheorems.LiveSessionsAreNotReplaced | packages/fleet-control-plane/src/sessions.ts:109-156 | A session row changes hands only by opening a session after the old one ran out, and the new session identifier was never used before. |
| FleetTheorems.IdentifiersStayStable | packages/fleet-control-plane/src/observations.ts:291-337 | At every moment of every run each enrollment has one row for each local name; asking again for names gives the same identifiers and changes nothing. |
| FleetNaming.IdentifiersAreStable | packages/fleet-control-plane/src/observations.ts:291-337 | The same from any fleet with unique names, with every answered identifier belonging to its name. |
| FleetObservation.AllPagesArrived | packages/fleet-control-plane/src/observations.ts:338-430 | When as many distinct pages arrived as the revision has, each of its indices arrived exactly once. |
| FleetProofs.SubmissionTargetsManaged | packages/fleet-control-plane/src/observations.ts:528-549 | A submission is accepted only for what the projection shows as managed. |
| FleetFencing.EnrollmentDecided | packages/fleet-control-plane/src/enrollment.ts:219-275 | In every run, an enrollment is taken if and only if an earlier request issued its token to the environment less than ten minutes before and no other issue, enrollment or revocation of the environment came between; it then issues exactly its credential. |
| FleetFencing.TokensAreIssued | packages/fleet-control-plane/src/enrollment.ts:117-128 | At every moment of every run a token is out exactly as it was issued, until it is replaced, redeemed or revoked, and expires ten minutes after it was issued. |
| FleetFencing.SessionsLive | packages/fleet-control-plane/src/sessions.ts:109-200 | At every moment of every run a session row lives until thirty seconds after its opening or its last heartbeat, a revocation or a restart. |
| FleetFencing.OpeningDecided | packages/fleet-control-plane/src/sessions.ts:109-156 | In every run a session is opened if and only if the credential is the one in force and no session of the environment lives. |
| FleetFencing.HeartbeatDecided | packages/fleet-control-plane/src/sessions.ts:157-200 | In every run a heartbeat is taken only from the live session under the credential in force; a repeated one is always taken and changes neither projection nor ledger. |
| FleetFencing.ConnectionsStand | packages/fleet-control-plane/src/sessions.ts:99-107 | At every moment of every run enrollment, connection and last contact of an environment are what the requests before tell. |
| FleetFencing.SweepsDecide | packages/fleet-control-plane/src/sessions.ts:99-107 | After a sweep an environment is online if and only if it was and its session lives; after a restart none is. |
| FleetNaming.NamingDecided | packages/fleet-control-plane/src/observations.ts:291-337 | Names are identified if and only if they are at most a hundred, distinct and not blank, the environment is enrolled, and the new ones leave no more than a hundred unpublished rows of the enrollment. |
| FleetProjection.PageDecided | packages/fleet-control-plane/src/observations.ts:338-430 | A page is taken if and only if it follows its revision or begins one, was not stored before, repeats no project, stays within a hundred projects and names only projects identified for the agent of its session. |
| FleetProjection.PageShows | packages/fleet-control-plane/src/observations.ts:391-461 | A page refreshes exactly its own projects, a missing snapshot keeping the last one with its time and an error; managed and published change exactly when it completes its revision, to exactly the projects of all its pages. |
| FleetProjection.PageExpires | packages/fleet-control-plane/src/observations.ts:391-461 | A page expires exactly the accepted commands of managed projects that it reports as unmanaged, or that the revision it completes does not name. |
| FleetProjection.SubmissionSeesLiveTarget | packages/fleet-control-plane/src/observations.ts:528-549 | A command is accepted only for a managed project reported in the last thirty seconds by the agent of the live session, over a connection heard from in the last thirty seconds, under the credential in force and, for a start, valid. |
| FleetService.FleetTables.Enroll | packages/fleet-control-plane/src/enrollment.ts:219-275 | Redeems exactly the unexpired token of a pending environment and issues one credential. |
| FleetService.FleetTables.RegenerateEnrollment | packages/fleet-control-plane/src/enrollment.ts:201-218 | Issues a new token exactly while the environment is known and not enrolled. |
| FleetService.FleetTables.Revoke | packages/fleet-control-plane/src/enrollment.ts:276-298 | Removes token, credential and session and expires the accepted commands in one transaction. |
| FleetService.FleetTables.OpenSession | packages/fleet-control-plane/src/sessions.ts:109-156 | Opens a session exactly for an authentic agent without a live one. |
| FleetService.FleetTables.Observe | packages/fleet-control-plane/src/sessions.ts:157-200 | A heartbeat renews the session; only a new sequence number is projected; a refusal leaves the tables as they were. |
| FleetService.FleetTables.ExpireSessions | packages/fleet-control-plane/src/sessions.ts:99-107 | Exactly the enrolled environments heard from whose session ran out go offline. |
| FleetService.FleetTables.RecoverAfterRestart | packages/fleet-control-plane/src/sessions.ts:212-223 | Every session is expired at once. |
| FleetService.FleetTables.ReceiveObservation | packages/fleet-control-plane/src/observations.ts:338-463 | The loops over observations, pages and rows come to exactly the specified transaction. |
| FleetService.FleetTables.IdentifyProjects | packages/fleet-control-plane/src/observations.ts:291-337 | The loop over names comes to exactly the specified identifiers and rows; a refusal changes nothing. |
| Scope.KeysTellMeanings | packages/fleet-control-plane/src/observations.ts:81-126 | Two scope keys are equal exactly when adapter, binding and repository are equal and the three label sets are equal as sets; identities exactly when the first three are. |
| ScopeWarnings.Warn | packages/fleet-control-plane/src/observations.ts:200-289 | For every project the counting algorithm gives exactly the quantified warnings: identical iff another managed, readable project elsewhere has the same scope, with its sorted, distinct list of at most a hundred; unverified iff the project is unreadable or another environment holds an unreadable one or one of the same identity with other labels. |
| ScopeWarnings.ReadKeysCohere | packages/fleet-control-plane/src/observations.ts:81-126 | Keys read from snapshots always meet what the counting relies on: equal keys have equal identities. |
| Paging.ObservationPages | packages/management-agent/src/foreground.ts:72-126 | Refused exactly when the inventory is invalid or one project alone is too large; otherwise the groups are the projects in order, each within 4 MiB with numbers reserved and each ending only where the next project no longer fits. |
| Paging.PageSize | packages/management-agent/src/foreground.ts:84-100 | The printed page takes exactly its fixed part, its three numbers in decimal and its printed observations, whichever request identifier was drawn. |
| Paging.PagesFit | packages/management-agent/src/foreground.ts:110-125 | There are one to a hundred pages, and every page as it is really numbered stays within 4 MiB in UTF-8. |
| Paging.PagesMakeInventoryManaged | packages/management-agent/src/foreground.ts:189-206 | The pages delivered in order as heartbeats of one live session are all taken, and make managed exactly the projects of the inventory. |
| LocalRead.ReadChunk | packages/management-agent/src/local-read.ts:161-221 | The binary search and the rollback come to exactly the specified chunk, for every size measured before the bytes were read. |
| LocalRead.ReadIsBounded | packages/management-agent/src/local-read.ts:170-221 | The text never exceeds the limit, even after rolling back, and is the decoding of exactly the bytes the chunk names. |
| LocalRead.SearchIsLargest | packages/management-agent/src/local-read.ts:172-190 | Of bytes the file already had when it was measured, the search takes the most whose decoding fits. |
| LocalRead.SearchNeedsMeasured | packages/management-agent/src/local-read.ts:172-190 | The search finds the largest fit of every buffer of n bytes if and only if none of them was appended after the file was measured or n is at most one. |
| LocalRead.GrownReadRefused | packages/management-agent/src/local-read.ts:161-221 | A two-byte character appended after the measurement fits the limit, and the read is refused. |
| LogFollow.ChunkedEqualsWhole | packages/management-agent/src/local-read.ts:160-240 | For a well-formed file and a limit of four or more, all chunks begin and end at code point boundaries, and their texts joined are the decoding of the whole file if and only if no later chunk begins at a byte order mark. |
| LogFollow.ChunkedEqualsWholeUnmarked | packages/management-agent/src/local-read.ts:160-240 | Without a byte order mark past its head, a file reads the same in chunks as whole. |
| LogFollow.AMarkIsLost | packages/management-agent/src/local-read.ts:177-190 | A file whose second chunk begins at a byte order mark loses it. |
| LogFollow.FollowTiles | packages/management-agent/src/local-read.ts:160-240 | Whatever the bytes are, a reader asking for twelve or more follows the cursors to the end; chunks lie end to end, each shows its own bytes within the limit, and only the last says it is the end. |
| LogFollow.ProgressNeedsTwelve | packages/management-agent/src/local-read.ts:216-221 | Every read of every file advances if and only if the reader asks for twelve bytes or more. |
| LogFollow.TwelveBytesAdvance | packages/management-agent/src/local-read.ts:161-221 | From twelve bytes on every read of a file with bytes left advances, whatever they are and however the file grew since it was measured. |
| LogFollow.StubbornStops | packages/management-agent/src/local-read.ts:216-221 | Four bytes that no limit from one to eleven gets past. |
| LogCursor.ReadLog | packages/management-agent/src/local-read.ts:143-240 | The answer is exactly the specified page: foreign cursors refused, outdated ones reset, the new cursor naming the bytes before its place. |
| LogCursor.CursorSurvivesAppending | packages/management-agent/src/local-read.ts:145-159 | After anything was appended a cursor is not reset, and the next read starts where the last one stopped. |
| LogCursor.ResetDecided | packages/management-agent/src/local-read.ts:143-159 | A cursor taken from one file resets on a visit to another exactly when the file is another one, was cut below the place, or changed in the sixty-four bytes before it, and the read then starts at the head; in another scope it is refused. |
| LogCursor.PollingGrowingLog | packages/management-agent/src/local-read.ts:145-240 | Polling a growing log with twelve bytes or more never resets, repeats, skips or stands still while there is something to show, even where the log grows between being measured and being read. |
| Utf8.RoundTrip | packages/management-agent/src/local-read.ts:177-190 | Decoding undoes encoding, for every text (RFC 3629, section 3; WHATWG Encoding Standard, section 8.1.1). |
| Utf8.WaitsExactly | packages/management-agent/src/local-read.ts:177-190 | The streaming decoder keeps a tail back exactly where more bytes could complete an encoding. |
| Utf8.SwallowsLongest | packages/management-agent/src/local-read.ts:177-190 | A replacement swallows the longest head that begins an encoding, or one byte where none does. |
| Utf8.ScanIsExact | packages/management-agent/src/local-read.ts:177-190 | The decoder accepts nothing but what the encoder writes: no overlong form, no surrogate, nothing past the last code point. |
| RunLog.RunIsConsistent | packages/fleet-control-plane/src/run-log-model.ts:75-116 | In every run the text is the longest suffix of whole code points, within 256 KiB, of everything received since the last reset; following implies online, unexpired and not awaiting a reset. |
| RunLog.NoReadAfterRotation | packages/fleet-control-plane/src/run-log-model.ts:52-74 | After a rotation no read begins until an explicit reset takes effect, even across disconnecting and reconnecting. |
| RunLog.SessionExpiryIsFinal | packages/fleet-control-plane/src/run-log-model.ts:126-133 | An expired session stays expired, reads nothing more and keeps what it shows. |
| RunLog.StaleRepliesAreIgnored | packages/fleet-control-plane/src/run-log-model.ts:75-85 | A reply to any but the latest read changes nothing. |
| RunLogHistory.RunIsWatched | packages/fleet-control-plane/src/run-log-model.ts:52-158 | In every run the model is what its events come to: a read begins exactly while connection and session stand, no rotation waits to be reset and no read is awaited; revision, cursor, phases and following are told by the events alone. |
| RunLogHistory.ReadsResume | packages/fleet-control-plane/src/run-log-model.ts:52-116 | In every run a read that begins asks with the cursor of the last chunk that answered an awaited read since the last reset, and with none if there was none. |
| LogWatch.GathersWhatIsPolled | packages/fleet-control-plane/src/run-log-model.ts:52-116 | A browser following a growing log gathers exactly what polling with the last cursor shows: every read asks with the cursor of the page before, nothing resets, and the pages tile the bytes. |
| LogWatch.ReaderHoldsTheLog | packages/fleet-control-plane/src/run-log-model.ts:52-116 | Following a log to which text is added, the browser gathers the decoding of exactly the bytes before its cursor, if and only if no page past the head of the file begins at a byte order mark; once a page says it is the end, those are all the bytes. |
| RunLog.SuffixComposes | packages/fleet-control-plane/src/run-log-model.ts:95-103 | Cutting along the way retains what cutting once at the end would. |
| RunLog.RunLogModel.Begin | packages/fleet-control-plane/src/run-log-model.ts:52-74 | A read begins exactly when none is awaited and neither offline, expired nor rotated; it names the next revision and the last cursor. |
| RunLog.RunLogModel.Receive | packages/fleet-control-plane/src/run-log-model.ts:75-116 | The state becomes exactly the specified one; a foreign payload throws and leaves the read awaited. |
| RunLog.RunLogModel.Pause | packages/fleet-control-plane/src/run-log-model.ts:117-120 | The state becomes exactly the specified one. |
| RunLog.RunLogModel.Follow | packages/fleet-control-plane/src/run-log-model.ts:121-125 | The state becomes exactly the specified one. |
| RunLog.RunLogModel.ExpireSession | packages/fleet-control-plane/src/run-log-model.ts:126-133 | The state becomes exactly the specified one. |
| RunLog.RunLogModel.Disconnect | packages/fleet-control-plane/src/run-log-model.ts:134-141 | The state becomes exactly the specified one. |
| RunLog.RunLogModel.Reconnect | packages/fleet-control-plane/src/run-log-model.ts:142-148 | The state becomes exactly the specified one. |
| RunLog.RunLogModel.Reset | packages/fleet-control-plane/src/run-log-model.ts:149-158 | The state becomes exactly the specified one. |

## Left out

- AtMostOnce.OutcomeIsAgreedForever: says nothing of a host that pruned the receipt, because a delayed poll may bring the command back as a fresh receipt without its result; `AtMostOnce.NoPermissionAfterPruning` says what stays safe.
- JournalRuns.EntriesOnlyGrow: says nothing of an entry once it was pruned on that host, for the same reason.
- LogWatch.ReaderHoldsTheLog: is about a file of well-formed text, each visit of which finds it at rest; for other bytes, and growth inside a read, `LogWatch.GathersWhatIsPolled` says what is gathered.
- LogFollow.ChunkedEqualsWhole: is about files that stand still and are well-formed; for other bytes `LogFollow.FollowTiles` gives tiling, bounds and progress, and growing files are `LogCursor.PollingGrowingLog`.
- FleetService.FleetTables.IdentifyProjects: asks for unique names, which every run keeps (`FleetTheorems.IdentifiersStayStable`) and the tables' unique index enforces.
- Liveness: nothing is said of when a message arrives or a run ends; after a session change a result may stay unpublished.
- Waits inside an executor run other than those on the network: between two network waits a run is one path of steps, while other runs of the host move only at those waits in the class; the transition system itself interleaves every step.
- Input schemas at the HTTP boundary (UUID and timestamp syntax, length limits of keys, reasons and names); the closing reason arrives trimmed.
- Audit rows are a set without actor and request identifiers; listing commands and projects in pages and the fleet summary are not modelled.
- Each transaction reads the clock once, except a claim, which reads it twice as the code does.
- SQLite, locks on files, HTTP, TLS and server-side sessions of operators: transactions are all or nothing, the lock has one owner, requests and answers are lossy messages.
- Process inspection, spawning, signalling and the runtime driver: their answers are inputs.
- Error texts: diagnostics carry their code; the wording is a parameter.
- Projected rows without an agent identifier, which an earlier version of the tables may have left.
- The order of run summaries, single-run details and the path checks around log files.
- Fields of an observation that the projection only stores (display name, path, version, runs): the encoder of an observation is a parameter of `Paging`.
- Case folding of adapter names is a parameter of `Scope`.
- Rotation of a log that keeps its inode and the bytes before the cursor cannot be told from appending.
