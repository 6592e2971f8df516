# CubePilot control plane: a verified model

CubePilot is a Go control plane with a REST and server-sent-events front. This
project models its concurrent protocols, its fold-style state machines and its
reconcilers in Dafny, and proves what they keep over every input, every run and
every interleaving.

How the model is built:

- A lock-protected section of the source is a method of a class whose contract
  states the whole new state as a function of the old one. The same functions are
  the steps of a state machine in which any number of goroutines, requests or
  clients interleave, one section at a time. `Run` is any such
  interleaving from the initial state; the main results are about every state of
  every run.
- A sequence of effects against an environment that moves by itself (the Stop
  handler, the instance reconciler) is a method that takes what the environment
  answers at each call and returns the trace of its effects. The environment's
  only promises are written as one predicate (`Truthful`, `Enabled`, `Allows`).
- The gateway, the API server, the clock and the network are that environment.
  Run ids, approval ids, object UIDs and resource versions are never reused;
  hashes are injective; JSON is an opaque encoding without raw newlines; a
  timeout is a step that may always happen.

| file | what it models |
|---|---|
| `RpcMux.dfy`, `RpcMuxRuns.dfy` | the WebSocket RPC multiplexer, its safety over whole runs and what a Call returns |
| `Hub.dfy`, `HubRuns.dfy`, `HubAnswers.dfy` | session streams with a two-phase close, and live turns; what a stream carries and how a turn ends |
| `Stop.dfy`, `StopAnswers.dfy` | the Stop protocol; when its wait ends, what it aborts and what it answers |
| `Approvals.dfy`, `ApprovalRuns.dfy`, `ApprovalDecisions.dfy` | concurrent approval decisions; what the gateway, the cards and the ledger are told |
| `Conns.dfy`, `ConnAnswers.dfy` | one user's gateway connection; which client a caller is handed |
| `ExecPolicy.dfy`, `PolicyInForce.dfy` | writing the exec policy and its applied mark; exactly when the mark names the policy in force |
| `Projector.dfy`, `ProjectorRuns.dfy`, `ProjectorAnswers.dfy` | the live projector from gateway frames to browser events, what it sends over whole runs, and which text each frame sends |
| `Grants.dfy`, `GrantRuns.dfy` | the bounded grants store; whole runs of concurrent Adds and Removes |
| `InstanceObjects.dfy`, `PassAnswers.dfy` | the instance reconciler; what a pass creates, deletes and reports |
| `Identity.dfy`, `IdentityPass.dfy`, `IdentityOutcomes.dfy` | minting and pruning identities; what a whole pass does to a cluster; when a mint succeeds and what it leaves |
| `ModelKeys.dfy`, `Catalogue.dfy`, `CatalogueAnswers.dfy` | the model key, the provider catalogue, what its requests are answered |
| `GatewayConfig.dfy`, `GatewayAnswers.dfy` | merge and render; who is rendered and who gives the primary |
| `Calendar.dfy`, `Cron.dfy`, `CronCap.dfy`, `CronAnswers.dfy` | the calendar, the minute search, what its cap loses, when an expression fires as written |
| `Scheduler.dfy`, `SchedulerRuns.dfy`, `SchedulerOutcomes.dfy` | the firing state machine, whole runs of it, what a fire leaves on record |
| `Common.dfy`, `Text.dfy` | shared datatypes; string search, trimming and order |
| `ManagedBlock.dfy`, `ManagedBlockFile.dfy` | the managed block; the file it leaves, word for word |
| `Sse.dfy`, `SseAnswers.dfy` | the event stream; what the browser is shown of it |

Where the code does not do what its own comments say, the model follows the code.
For each such claim a lemma gives a concrete input on which it fails, and another
proves, for all inputs, exactly when it holds:

- The output cap of a tool card holds only for streamed fragments: a terminal
  `command_output` replaces the buffer whatever its size (`CapCanBeExceeded`,
  `CapHoldsIffLastCompleteOutputFits`).
- Not every 502 of a Stop leaves the records untouched: one comes after the
  settlement, when the wait's own read fails (`SettledAndStillBadGateway`,
  `BadGatewayLeavesRecordsIffNotProven`).
- "Never settle a session whose run is still in flight" holds exactly when no run was
  promoted between the proof and the settlement and, after an answered abort, no other
  run was left over (`PromotedRunIsSettledOver`, `SessionIsIdleAtTheSettlementIff`).
  No answer the handler can get guarantees that (`NoAnswerGuaranteesAnIdleSession`).
  Of the run it names, its answers guarantee it exactly when the abort was answered or
  the gateway named the run: a live turn installs its run id before it sends
  (`UnsentRunStartsUnderTheSettlement`, `AnswersGuaranteeTheNamedRunIff`,
  `ReconciledSettleIsSafeIffStarted`).
- "Was connected" is monotone except when the client drops between its handshake
  and the recording of it (`ConnectedFlickers`,
  `WasConnectedIsMonotoneOutsideTheWindow`).
- The applied mark can name a policy that is not in force: after overlapping turns,
  after a write that landed without its acknowledgement, after somebody else's write,
  or when one revision stands for two lists. Every gated turn starts under its own list
  exactly when the first two happen only among configurations with one list, foreign
  writes leave that list, and no revision names two (`StartsAreInForceIff`, with one
  run for each case).
- A nil `Add` does not put the grant on the list when an unreadable value already
  stands under its key (`UnreadableValueHidesTheGrant`, `AddedGrantIsShownIff`).
- A selection stored with white space around it escapes the refusal that protects
  selections (`UntrimmedSelectionIsStranded`,
  `SelectionsSurviveUnlessStoredUntrimmed`).
- The API server's rule for the default model folds ASCII only, the platform's key
  folds Unicode (`KelvinIdIsKeyedDifferently`,
  `CelAgreesUnlessTheIdFoldsBeyondAscii`). A selection the resolver accepts need not
  be on the allow list (`ResolvedSelectionMayNotBeAllowed`,
  `ResolvedIsAllowedIffTheWinnerServesIt`). An alias can be another provider's
  reference (`AliasCanSpellAForeignReference`, `AliasIsAReferenceIff`).
- The heal path re-vets ownership but not failure, so it can delete a healthy
  replacement: any replacement of any failed pod, and the pod it saw failed exactly
  when the UID it re-reads is the one it saw (`HealCanDeleteAHealthyReplacement`,
  `HealDeletesAnyReplacement`, `HealHitsThePodSeenFailedIff`).
- Two installations on one cluster revoke each other's users: a user of the other
  namespace stays identified exactly when none of its bindings is labelled, and every
  binding a mint makes is (`SecondInstallationRevokesTheFirst`,
  `PassTakesOtherInstallationsBindings`, `FreshlyMintedUserIsRevoked`).
- A manual run can be repeated, or swallow a request made while it runs: the next
  reconcile runs it again exactly when the clearing patch failed
  (`ManualRunRepeatsIffNotCleared`).
- The 366-day cap loses exactly the schedules that only 29 February satisfies
  (`CapLosesExactlyLeapDayOnly`, `LostScheduleNeverFires`). A step so wide that the
  loop's integer wraps makes 29 listed days count as every day, and 31 not
  (`WrappingStepIsTakenForEveryDay`, `DomAllMeansEveryDayIff`).
- Reconciling the managed block is idempotent exactly when the trimmed body holds
  no end marker, which the check before the write ensures
  (`ReconcileIsIdempotent`, `AcceptedBodiesSettle`).

## Model

| member | source | states |
|---|---|---|
| `RpcMux.Client.NewRequest` | internal/openclaw/ws/client.go:503-520 | a Call takes a request id one above every earlier one and changes nothing else |
| `RpcMux.Client.Register` | internal/openclaw/ws/client.go:520-540 | the id enters the pending table with a fresh, empty channel |
| `RpcMux.Client.Unregister` | internal/openclaw/ws/client.go:540-567 | the id leaves the table and nothing else changes |
| `RpcMux.Client.TryAcquireWrite` | internal/openclaw/ws/client.go:129-140 | the write token is taken exactly when nobody holds it |
| `RpcMux.Client.ReleaseWrite` | internal/openclaw/ws/client.go:142-147 | the token is free again |
| `RpcMux.Client.TakePending` | internal/openclaw/ws/client.go:446-456 | deliver finds an id only while it is pending, and takes it out of the table |
| `RpcMux.Client.SendReply` | internal/openclaw/ws/client.go:446-456 | the very frame that arrived is queued last on its own request's channel, and no other channel changes; the precondition is that the send does not block |
| `RpcMux.Client.FailAllPending` | internal/openclaw/ws/client.go:603-614 | the table is emptied and every channel with room gets one error frame, the others keep theirs |
| `RpcMux.Client.DrainedOutcome` | internal/openclaw/ws/client.go:594-601 | a queued frame is taken, None only when the channel is empty |
| `RpcMux.StepInv` | internal/openclaw/ws/client.go:393-613 | every atomic section of callers, pump, drain and close keeps the whole invariant |
| `RpcMuxRuns.RunInv` | internal/openclaw/ws/client.go:393-613 | the invariant holds in every state of every interleaving |
| `RpcMuxRuns.PumpNeverBlocks` | internal/openclaw/ws/client.go:393-456 | deliver's send is always enabled, each channel receives at most one frame, a pending id's channel is empty |
| `RpcMuxRuns.RepliesMatchAndAreNotLost` | internal/openclaw/ws/client.go:540-601 | a Call returns only a frame with its own id; at the done case its frame is queued, so the generic closure is never returned |
| `RpcMuxRuns.OneWriterAndNoLeakedToken` | internal/openclaw/ws/client.go:129-147 | the token is taken exactly while one Call holds it, on every path, panics included |
| `RpcMuxRuns.NoReturnedCallIsPending` | internal/openclaw/ws/client.go:503-567 | given that writes fail after the close, no returned Call leaves an entry in the table |
| `RpcMuxRuns.ReturnedFramesCameUnchanged` | internal/openclaw/ws/client.go:446-456 | a frame a Call returns was read off the wire by the pump, as it stands, while its id was pending, or is the error frame of the failure that ended the connection |
| `RpcMuxRuns.TheReplyIsTheAnswer` | internal/openclaw/ws/client.go:446-577 | a reply read while its id is pending is the only frame that Call can return |
| `RpcMuxRuns.CallFailsIffItGaveUp` | internal/openclaw/ws/client.go:540-567 | a Call returns without a frame exactly when its own token wait, write or context failed |
| `Hub.Hub.Open` | internal/server/ssehub.go:42-59 | a stream is opened and registered exactly when the session has none |
| `Hub.Hub.PublishTo` | internal/server/ssehub.go:77-85 | an event reaches the registered stream whole exactly when there is one, it is not closed and the connection takes it; otherwise the caller is told so |
| `Hub.Hub.Remove` | internal/server/ssehub.go:197-203 | the entry goes only when it is this very stream |
| `Hub.Hub.Close` | internal/server/ssehub.go:184-195 | the first Close marks and unregisters, a later one does nothing |
| `Hub.Stream.Send` | internal/server/ssehub.go:154-181 | a closed stream is not written to, an open one gets what the connection takes, and a short write is an error |
| `Hub.Stream.MarkClosed` | internal/server/ssehub.go:184-192 | exactly one caller is told to unregister |
| `Hub.LateRemoveSparesTheSuccessor` | internal/server/ssehub.go:197-203 | a removal that comes after the stream was replaced leaves the successor registered |
| `Hub.StepInv` | internal/server/ssehub.go:42-203 | every locked section of requests, writers, routers and waiters keeps the invariant |
| `HubRuns.OneStreamPerSession` | internal/server/ssehub.go:42-59 | two requests never hold open streams of one session |
| `HubRuns.NothingIsWrittenToAClosedStream` | internal/server/ssehub.go:154-237 | from its close on a stream's output never changes, whoever still holds it |
| `HubRuns.CloseUnregistersItsOwnStream` | internal/server/ssehub.go:184-203 | the second phase of a close finds its own stream registered and removes that entry alone |
| `HubRuns.RegisterLiveNeverOverwrites` | internal/server/live.go:116-125 | a request registering its turn finds no other turn of the session |
| `HubRuns.ReleaseLiveDropsItsOwnTurn` | internal/server/live.go:129-140 | the release, which compares only the user, drops the turn its own request registered |
| `HubRuns.LiveTurnHoldsTheStream` | internal/server/handlers.go:183-248 | a registered live turn's request holds the session's registered, unclosed stream |
| `HubRuns.FirstOutcomeIsFinal` | internal/server/live.go:60-86 | the first finishWith decides a turn's outcome for good |
| `HubRuns.WaitIdleReturnsOnlyWhenNoneIsRegistered` | internal/server/ssehub.go:102-122 | WaitIdle returns nil only from a state with no registered stream |
| `HubRuns.WaitersAreWoken` | internal/server/ssehub.go:102-122 | a parked waiter's stream is closed, or still registered so that its close will wake it |
| `HubRuns.ClosedStreamMayStillRefuseOpen` | internal/server/ssehub.go:95-101 | a run in which the stream is closed and Open still refuses, which is why membership is re-checked |
| `HubAnswers.OpenIsRefusedIff` | internal/server/ssehub.go:42-59 | a request is refused exactly when its session has a stream; otherwise it gets a new one, empty and open |
| `HubAnswers.StreamCarriesItsWrites` | internal/server/ssehub.go:154-181 | over whole runs a stream carries exactly the frames written to it before its close, each once and in order |
| `HubAnswers.TurnEndsAsFirstReported` | internal/server/live.go:60-86 | over whole runs a turn ends as its first report says, and carries the run id set last |
| `Stop.TargetOf` | internal/server/abort.go:152-182 | whatever names the run, the name is not empty |
| `Stop.AbortLanded` | internal/server/abort.go:333-342 | only a positive not-busy answer counts as landed |
| `Stop.PollOnce` | internal/server/abort.go:419-442 | one turn of the wait: both signals re-read, and a decision or a re-arm; `StopAnswers` says which |
| `Stop.WaitSessionIdle` | internal/server/abort.go:408-443 | the loop's reads and outcome, for any sequence of ticks; `StopAnswers.WaitSettlesIff` says when it settles |
| `Stop.HandleAbort` | internal/server/abort.go:98-278 | the handler's trace of aborts, reads, settlement and response, for any environment |
| `Stop.AbortAlwaysNamesARun` | internal/server/abort.go:184-196 | chat.abort is sent at most once, first, with a non-empty id, and never for a session read as idle |
| `Stop.RespondsOnceAndLast` | internal/server/abort.go:98-278 | every path writes exactly one response, and nothing after it |
| `Stop.SettlesOnlyAfterTheNamedRunIsGone` | internal/server/abort.go:89-97 | the settlement starts only when the named run has ended, once it had started |
| `Stop.SettlesOnlyAfterTheGatewaysRunIsGone` | internal/server/abort.go:160-180 | for a run named by the gateway's own read the guarantee has no proviso |
| `Stop.ReconciledSettleIsSafeIffStarted` | internal/server/abort.go:218-250 | settling on a not-busy read is safe in every future of that read exactly when the run had started |
| `Stop.UnsentRunStartsUnderTheSettlement` | internal/server/live.go:193-205 | a Stop of a turn that has not sent yet settles while its run is in flight |
| `Stop.AnswersGuaranteeTheNamedRunIff` | internal/server/abort.go:89-250 | the handler's answers guarantee that the run it named is gone exactly when the abort was answered or the gateway had named it |
| `Stop.SessionIsIdleAtTheSettlementIff` | internal/server/abort.go:89-97 | no run of the session is in flight at the settlement exactly when none was promoted after the proof and none beside the proof is left over; a not-busy proof leaves none over |
| `Stop.NoAnswerGuaranteesAnIdleSession` | internal/server/abort.go:89-97 | whatever the handler was told, the same answers settle over a run promoted in between |
| `Stop.PromotedRunIsSettledOver` | internal/server/abort.go:89-97 | a run promoted after the abort that is in flight at the settlement |
| `Stop.BadGatewayLeavesRecordsIffNotProven` | internal/server/abort.go:160-250 | a 502 leaves every record untouched exactly when nothing proved the run gone; otherwise it is the wait's read that failed |
| `Stop.SettledAndStillBadGateway` | internal/server/abort.go:265-275 | a 502 answered after the settlement |
| `Stop.OkFollowsQuietSession` | internal/server/abort.go:421-434 | a 200 directly follows a busy read taken when no run was in flight and then an observation of no registered stream, after the settlement |
| `StopAnswers.WaitEndsByItsFirstDecidingTick` | internal/server/abort.go:408-443 | the wait settles, fails or times out exactly as its first deciding tick says; a busy read, an open stream and a hub that has not reported decide nothing |
| `StopAnswers.WaitSettlesIff` | internal/server/abort.go:419-442 | the wait settles exactly when in some tick the hub reports idle, the read is not busy and no stream is open, and before it no read failed and nothing expired |
| `StopAnswers.AbortsExactlyTheNamedRun` | internal/server/abort.go:143-196 | an abort is sent for exactly the caller's own live run, or else the run the gateway names |
| `StopAnswers.SettlesIffStopped` | internal/server/abort.go:198-265 | the records are settled, once, exactly when the session is idle, the abort was confirmed, or the reconciling read found it not busy |
| `StopAnswers.AnswersByTheirCause` | internal/server/abort.go:98-278 | the response code of every path, from what the handler was told |
| `Approvals.ApprovalService.TryReserve` | internal/server/approvals.go:272-290 | the id is reserved under a fresh channel, or the holder's channel is returned and nothing changes |
| `Approvals.ApprovalService.Release` | internal/server/approvals.go:295-304 | the entry goes and its channel is closed |
| `Approvals.ApprovalService.Deciding` | internal/server/approvals.go:307-312 | whether the id is reserved |
| `Approvals.StepInv` | internal/server/approvals.go:208-304 | every section of every Resolve and every move of the gateway keeps the invariant |
| `ApprovalRuns.ReservedExactlyWhileACallDecides` | internal/server/approvals.go:216-219 | an id is in inflight exactly while some call is between reserve and release |
| `ApprovalRuns.DecisionsOnOneIdAreSerial` | internal/server/approvals.go:256-290 | two calls never decide one id at once |
| `ApprovalRuns.WaitersAreNeverStranded` | internal/server/approvals.go:272-290 | a waiter holds the current holder's channel or a closed one |
| `ApprovalRuns.ReleaseEndsItsOwnReservation` | internal/server/approvals.go:292-304 | release finds its own entry and closes its channel for the first time |
| `ApprovalRuns.OneSuccessAndOneAuditPerApproval` | internal/server/approvals.go:208-240 | however many calls decide one id, at most one succeeds and at most one audit entry exists |
| `ApprovalRuns.AuditFollowsAnAcceptedDecision` | internal/server/approvals.go:232-240 | an audit entry belongs to a call whose decision the gateway accepted, for an id no longer listed |
| `ApprovalRuns.NoPendingOnlyAfterTheGatewayMovedOn` | internal/server/approvals.go:221-229 | "no pending" is told only of an id not listed for that session, and a known id stays unlisted |
| `ApprovalDecisions.GatewayIsToldTheDecisionOnce` | internal/server/approvals.go:230-237 | the gateway is told at most one verdict for each approval, and it is the deciding call's: approve for approve and allow-always, reject for reject |
| `ApprovalDecisions.InvalidAtTheDoor` | internal/server/approvals.go:208-211 | a call is refused as invalid exactly when its decision is none of the three |
| `ApprovalDecisions.SuccessMeansTold` | internal/server/approvals.go:221-240 | a call that succeeds told the gateway its decision, about an approval listed for its own session |
| `ApprovalDecisions.LedgerSaysWhatTheGatewayWasTold` | internal/server/approvals.go:330-345 | every ledger entry stands under the user and session of the approval and says what the gateway was told |
| `ApprovalDecisions.CardsShowWhatTheGatewayWasTold` | internal/server/approvals.go:313-326 | every resolved card goes to the session of the approval and shows what the gateway was told |
| `ApprovalDecisions.AnswersHaveTheirCause` | internal/server/approvals.go:208-304 | every answer of a call was caused by a step of its own: a timeout while waiting, a failed read or write, an approval not found, an accepted write |
| `Conns.UserConn.LiveConn` | internal/server/gateway.go:426-434 | the stored client, exactly when it is connected |
| `Conns.UserConn.GatewayConnected` | internal/server/gateway.go:384-401 | connected now, or recorded as connected once |
| `Conns.UserConn.Register` | internal/server/gateway.go:320-328 | a fresh client replaces the entry and carries the earlier success forward |
| `Conns.UserConn.MarkConnected` | internal/server/gateway.go:404-410 | the current entry is marked, nothing else changes |
| `Conns.UserConn.TryDialToken` | internal/server/gateway.go:262-268 | the dial token is taken exactly when free |
| `Conns.StepInv` | internal/server/gateway.go:244-410 | every section of every caller, and every drop, keeps the invariant |
| `Conns.OneDialAndOneConnectedClient` | internal/server/gateway.go:240-243 | at most one dial is in progress, at most one client is connected, and none during a dial |
| `Conns.MarkRecordsItsOwnEntry` | internal/server/gateway.go:342-345 | a dial's success is recorded on the entry that dial registered |
| `Conns.WasConnectedIsMonotoneOutsideTheWindow` | internal/server/gateway.go:364-401 | "was connected" is lost by a step exactly when the client drops before its success is recorded |
| `Conns.RecordedConnectionStays` | internal/server/gateway.go:155-164 | once recorded, it survives every drop and re-dial |
| `Conns.ConnectedFlickers` | internal/server/gateway.go:392-401 | a run in which it goes from true to false and back |
| `ConnAnswers.ReturnedClientWasUsable` | internal/server/gateway.go:244-345 | a client handed to a caller stood in the entry, connected, in this state of the run or an earlier one |
| `ConnAnswers.NoClientIff` | internal/server/gateway.go:262-268 | a caller is handed no client exactly when it timed out waiting for the token or its own dial failed for good |
| `ConnAnswers.UsableClientIsReused` | internal/server/gateway.go:244-277 | both checks hand over the usable client of the entry, and dial only when there is none |
| `ExecPolicy.ToEntries` | internal/server/approvals.go:701-710 | the loop computes the written list |
| `ExecPolicy.EntriesKeepExactlyTheNonBlank` | internal/server/approvals.go:701-710 | rules with a blank pattern are dropped, and no others |
| `ExecPolicy.Gateway.Set` | internal/server/approvals.go:687-695 | a set lands exactly when the file is what it was based on |
| `ExecPolicy.Gateway.ApplyPolicyOnce` | internal/server/approvals.go:668-697 | an undisturbed round writes the main list: empty under AlwaysAsk, otherwise the rules with a pattern in their order; the rest of the file stays |
| `ExecPolicy.RewriteTouchesOnlyTheMainList` | internal/server/approvals.go:673-686 | only the main agent's allowlist changes |
| `ExecPolicy.GatedTurnsStartOnlyAfterTheirWrite` | internal/server/approvals.go:550-587 | in every interleaving the mark names only a written revision, and a gated turn starts only with one, or with the empty revision |
| `ExecPolicy.OnlyNoPolicyStartsUnguarded` | internal/server/approvals.go:551-567 | an unguarded start is only ever the answer to a resolved policy of none |
| `ExecPolicy.WritesSeeWhatTheyOverwrite` | internal/server/approvals.go:668-697 | a landed write rewrites the file as it stands, changing the main list alone, so no concurrent write is overwritten unseen |
| `ExecPolicy.ListForIsPrescribed` | internal/server/approvals.go:677-686 | the list written is the one the policy prescribes and no other: empty under AlwaysAsk, otherwise the rules with a pattern, each once, in their order |
| `ExecPolicy.LandedSetsWriteThePolicy` | internal/server/approvals.go:668-697 | in every interleaving a landed set leaves the main list its configuration prescribes, and the rest of the file as it was |
| `ExecPolicy.TurnsAreAdmittedOnTheirPolicy` | internal/server/approvals.go:551-571 | what PreTurn makes of each policy and of a missing one, and what the mark check does next |
| `ExecPolicy.FailedRoundsAreRetried` | internal/server/approvals.go:645-665 | a failed round is followed by another, three in all, and then by a refusal |
| `PolicyInForce.SerialTurnsRunUnderTheirOwnPolicy` | internal/server/approvals.go:572-586 | with one PreTurn at a time a gated turn starts under the list its revision names, and under an empty one when that policy is AlwaysAsk |
| `PolicyInForce.OneListIsInForce` | internal/server/approvals.go:550-587 | when every gated configuration and every foreign write has one list, no interleaving and no lost acknowledgement starts a turn under another |
| `PolicyInForce.OverlappingTurnsCanLeaveAStaleMark` | internal/server/approvals.go:575-585 | for any two gated configurations with different lists, an interleaving of two turns after which a third starts under the other's list without a write |
| `PolicyInForce.LostReplyLeavesAStaleMark` | internal/server/approvals.go:575-697 | the same with turns one after the other, when a landed write is not acknowledged and the configuration returns to the marked revision |
| `PolicyInForce.ForeignWriteLeavesAStaleMark` | internal/server/approvals.go:575-585 | the same after somebody else's write of any other list |
| `PolicyInForce.SharedRevisionLeavesAStaleMark` | internal/server/approvals.go:575-585 | the same when two lists share a revision |
| `PolicyInForce.StartsAreInForceIff` | internal/server/approvals.go:550-697 | over all runs with a given set of disturbances, every gated turn with a revision starts under its own list exactly when overlaps and lost acknowledgements stay among configurations of one list, foreign writes leave that list, and revisions name one list each |
| `Projector.LiveProjector.Call` | internal/server/livetools.go:534-542 | the call is found, or entered at the end of the order |
| `Projector.LiveProjector.DoStartCall` | internal/server/livetools.go:379-392 | true exactly for the first start of an id, which also counts a block and fixes suppression |
| `Projector.LiveProjector.StartCard` | internal/server/livetools.go:162-182 | the item stream opens a card only when the call is not open or suppressed |
| `Projector.LiveProjector.ToolEvent` | internal/server/livetools.go:396-450 | state and events equal the fold's, for every phase; `ProjectorAnswers` says what that fold sends |
| `Projector.LiveProjector.PreambleEvent` | internal/server/livetools.go:319-338 | narration under its item id, or the block number |
| `Projector.LiveProjector.CommandOutputEvent` | internal/server/livetools.go:191-227 | fragments are capped, a terminal output replaces, the result is emitted once |
| `Projector.LiveProjector.FinalizeAll` | internal/server/livetools.go:286-303 | every open card that owes a result gets one, in order, and owes none afterwards |
| `Projector.LiveProjector.Feed` | internal/server/livetools.go:139-281 | one frame: new state, events and terminal flag equal the fold's, and order still enumerates calls |
| `ProjectorRuns.StepCardInv` | internal/server/livetools.go:139-303 | every frame keeps the log's cards and the state in agreement |
| `ProjectorRuns.CardsAreEmittedOnce` | internal/server/livetools.go:139-450 | each id has at most one tool_call and at most one tool_result, no result without an earlier call, none for suppressed ids |
| `ProjectorRuns.TerminalSettlesEveryCard` | internal/server/livetools.go:286-303 | when a frame ends the run every card shown has exactly one result |
| `ProjectorRuns.DeferredResultsFollowFirstAppearance` | internal/server/livetools.go:283-303 | order is first appearance without repeats, and deferred results follow it |
| `ProjectorRuns.BlockCountsStartedCalls` | internal/server/livetools.go:379-392 | block is one plus the number of distinct started ids, suppressed ones included |
| `ProjectorRuns.BrowserTextIsTheChatFold` | internal/server/livetools.go:228-281 | the browser's text is the fold of the chat frames; a final adds only for a run that was silent |
| `ProjectorRuns.OutputIsCappedConcatenation` | internal/server/livetools.go:191-227 | the buffer is the last complete output extended by later fragments up to the cap |
| `ProjectorRuns.CapHoldsIffLastCompleteOutputFits` | internal/server/livetools.go:544-552 | the buffer stays within the cap exactly when the last complete output did |
| `ProjectorRuns.CapCanBeExceeded` | internal/server/livetools.go:205-212 | a terminal output longer than the cap is kept whole |
| `ProjectorAnswers.StartOpensTheCard` | internal/server/livetools.go:162-182 | the first start of an id sends its card, with its name and arguments, unless it asks the user; a later one sends nothing |
| `ProjectorAnswers.ResultSettlesAllButCommands` | internal/server/livetools.go:396-450 | for a waiting call that runs no commands a result frame sends exactly its text, or its error when an error has no text; for a command it sends nothing |
| `ProjectorAnswers.OutputEndSettles` | internal/server/livetools.go:191-227 | the end of the output of a waiting call sends one result: the terminal output, else what accumulated, else the summary |
| `ProjectorAnswers.EndSettlesWhatWaits` | internal/server/livetools.go:286-303 | the end of the run sends a result exactly for the waiting calls: the text their result frame carried, else the accumulated output |
| `ProjectorAnswers.EndSettlesInOrder` | internal/server/livetools.go:228-303 | what the end sends, in full: those results in order of first appearance, then at most the text of a run that was silent |
| `ProjectorAnswers.OnlyTheEndIsTerminal` | internal/server/livetools.go:228-281 | a frame ends the run exactly when it is a final, aborted or error chat frame |
| `ProjectorAnswers.OtherFramesSayNothingAboutCards` | internal/server/livetools.go:139-281 | no other frame sends a card or a result |
| `ProjectorAnswers.PreambleIsNarrated` | internal/server/livetools.go:319-338 | a preamble is sent under its own id, or under the decimal number of its block: one more than the calls started so far |
| `Grants.Evict` | internal/grants/grants.go:362-382 | undecodable entries go first, then the oldest until both bounds hold |
| `Grants.EvictKeepsTheNewest` | internal/grants/grants.go:355-382 | survivors are a newest suffix within both bounds, and one fewer deletion breaks a bound |
| `GrantRuns.EvictionAlwaysMakesRoom` | internal/grants/grants.go:191-199 | an Add never refuses for the budget |
| `Grants.AnOrderExists` | internal/grants/grants.go:376-377 | every map can be put in creation order, so the sort always has an answer |
| `Grants.ConfigMap.Ensure` | internal/grants/grants.go:272-332 | a missing object is created empty, the contents do not change |
| `Grants.ConfigMap.Put` | internal/grants/grants.go:211-212 | an update lands exactly on the version it read |
| `Grants.ConfigMap.AddOnce` | internal/grants/grants.go:185-212 | undisturbed, one round of Add leaves insert-if-absent-then-evict, or refuses and leaves the contents |
| `Grants.ConfigMap.RemoveOnce` | internal/grants/grants.go:241-261 | undisturbed, Remove deletes the key and nothing else |
| `Grants.StepInv` | internal/grants/grants.go:167-332 | every API call of every client, lost replies and collection included, keeps the invariant |
| `GrantRuns.StoreRefinesTheAtomicMap` | internal/grants/grants.go:167-261 | every interleaving leaves the replay of the atomic operations, each nil call being one of them once |
| `GrantRuns.NoGrantIsLostExceptByEviction` | internal/grants/grants.go:115-128 | a grant leaves only by its own Remove, an Add's eviction, or collection of the object |
| `GrantRuns.NilAddMeansStored` | internal/grants/grants.go:200-213 | when Add returns nil the key is stored, with its value if it was new |
| `GrantRuns.AddedGrantIsShownIff` | internal/grants/grants.go:132-158 | after an Add that took effect, List shows the grant exactly when no unreadable value stood under its key |
| `GrantRuns.UnreadableValueHidesTheGrant` | internal/grants/grants.go:188-190 | Add returns nil over an unreadable value and List does not show the grant |
| `GrantRuns.LandedRemoveTakesItsKey` | internal/grants/grants.go:241-261 | in every interleaving a Remove whose update lands takes its key and nothing else |
| `GrantRuns.NilRemoveMeansGone` | internal/grants/grants.go:222-261 | the step by which a Remove returns nil leaves no grant under its key |
| `GrantRuns.LandedAddKeepsTheNewest` | internal/grants/grants.go:185-212 | an Add whose update lands stores its key and, of the readable entries with it, the longest newest suffix within the bounds |
| `GrantRuns.OnlyLandedWritesChange` | internal/grants/grants.go:167-332 | nothing but a landed update or the collection of the object changes what is stored |
| `GrantRuns.TooOldWouldHaveBeenEvicted` | internal/grants/grants.go:200-211 | an Add that gives up as too old leaves the store untouched, and its entry is among those eviction would take |
| `GrantRuns.NothingIsRefused` | internal/grants/grants.go:191-199 | in no run is an Add refused for the budget |
| `GrantRuns.ConflictsAreRetried` | internal/grants/grants.go:185-212 | an update that lost its race is started over, five in all, and then fails |
| `InstanceObjects.Ensure` | internal/controller/agentinstance_controller.go:544-577 | create when missing, keep when owned, refuse otherwise |
| `InstanceObjects.EnsurePod` | internal/controller/agentinstance_controller.go:648-687 | the pod's branches, for any state the API server is in at each call |
| `InstanceObjects.DeletePod` | internal/controller/agentinstance_controller.go:704-723 | the heal's delete, vetted and under a UID precondition |
| `InstanceObjects.Reconcile` | internal/controller/agentinstance_controller.go:130-285 | the pass's creates, deletes and status, and how it requeues |
| `InstanceObjects.EffectsHitOnlyVettedObjects` | internal/controller/agentinstance_controller.go:438-504 | under any interference a delete that lands hits the object vetted as owned, and a create follows NotFound |
| `InstanceObjects.ForeignObjectsFailClosed` | internal/controller/agentinstance_controller.go:538-577 | a foreign PVC, Service or Pod is neither adopted nor deleted, and the pass ends Failed |
| `InstanceObjects.NoObjectBeforeTheIdentity` | internal/controller/agentinstance_controller.go:125-143 | nothing is created or deleted before the user's identity exists |
| `InstanceObjects.RoundsConverge` | internal/controller/agentinstance_controller.go:631-687 | each undisturbed round strictly decreases the distance to PVC, Service and desired pod all in place, which then stay |
| `InstanceObjects.ThreeRoundsSuffice` | internal/controller/agentinstance_controller.go:631-687 | whatever of the three is missing and whether the pod is drifted, failed or terminating, at most three rounds end with everything in place |
| `InstanceObjects.ForeignPodIsLeftAlone` | internal/controller/agentinstance_controller.go:659-669 | no number of rounds replaces or touches a foreign pod that is not itself terminating |
| `InstanceObjects.HealHitsThePodSeenFailedIff` | internal/controller/agentinstance_controller.go:275-281 | a heal's delete that lands hits the pod the pass saw failed exactly when the re-read pod has that pod's UID |
| `InstanceObjects.HealDeletesAnyReplacement` | internal/controller/agentinstance_controller.go:275-281 | for every failed pod and every owned replacement there is a pass that sees the one and deletes the other |
| `InstanceObjects.HealCanDeleteAHealthyReplacement` | internal/controller/agentinstance_controller.go:275-281 | a pass that deletes an owned pod that is ready and has the desired fingerprint |
| `PassAnswers.CreatesIff` | internal/controller/agentinstance_controller.go:544-687 | each object is created exactly when the pass gets to it, finds nothing under its name, and the create lands |
| `PassAnswers.DeletesIff` | internal/controller/agentinstance_controller.go:648-723 | a pod is deleted exactly for drift, as vetted, or after a pod was seen failed, as vetted once more |
| `PassAnswers.ReportsIff` | internal/controller/agentinstance_controller.go:130-285 | a status is reported exactly when it is the phase of the pod observed, or Failed because an object cannot be had |
| `PassAnswers.ComesRound` | internal/controller/agentinstance_controller.go:130-285 | when and how the instance comes round again, on every path |
| `Identity.MintUser` | internal/controller/builtin.go:358-417 | one user's mint, stopping at the first failure |
| `Identity.ReconcileBinding` | internal/controller/builtin.go:422-461 | create, replace on a wrong role, repair the subject, or leave |
| `Identity.UsersWithInstances` | internal/controller/builtin.go:247-271 | exactly the owners of non-terminating instances, strictly sorted |
| `Identity.Prune` | internal/controller/builtin.go:276-332 | removes only stale objects, and all of them unless one of their deletes fails |
| `IdentityPass.EnsureBuiltin` | internal/controller/builtin.go:197-224 | the prune runs whatever the mints did; once it succeeds nothing labelled and unwanted is left, with error-free mints every owner is identified, and nothing else of the cluster is touched |
| `Identity.MintTouchesOnlyTheUsersIdentity` | internal/controller/builtin.go:226-242 | a mint, failed or not, touches only the listed identity objects of its user |
| `Identity.MintAllIdentifies` | internal/controller/builtin.go:358-461 | after error-free mints every owner's objects exist, bindings with the right role and subject, the kubeconfig with the current token |
| `IdentityPass.PruneLeavesNothingStale` | internal/controller/builtin.go:210-224 | a user no live instance speaks for keeps, of its identity, exactly the objects that never were labelled |
| `IdentityPass.PruneTakesExactlyTheStale` | internal/controller/builtin.go:292-331 | against the cluster the pass began with, an unwanted object survives, unchanged, exactly when the prune's lists do not hold it |
| `IdentityPass.PassConverges` | internal/controller/builtin.go:197-224 | an error-free pass identifies every owner and leaves nothing stale |
| `IdentityPass.RevokeLastIdentity` | internal/controller/agentinstance_controller.go:517-536 | the listed objects go exactly when no other live instance shares the owner, and nothing else changes |
| `IdentityPass.RevocationTakesExactlyOneUser` | internal/controller/builtin.go:226-242 | revoking one user leaves every other user identified |
| `IdentityPass.MintAndRevocationAgree` | internal/controller/builtin.go:253-262 | a terminating instance's owner is minted exactly when its revocation would be skipped |
| `IdentityPass.PassTakesOtherInstallationsBindings` | internal/controller/builtin.go:314-331 | of another namespace's objects a pass takes exactly the labelled bindings, and changes none of the others |
| `IdentityPass.SecondInstallationRevokesTheFirst` | internal/controller/builtin.go:314-331 | a second installation's pass leaves a user of the first identified exactly when none of its bindings is labelled |
| `IdentityPass.FreshlyMintedUserIsRevoked` | internal/controller/builtin.go:314-461 | a user whose binding the mint created is no longer identified after the other installation's pass |
| `IdentityOutcomes.MintSucceedsIff` | internal/controller/builtin.go:358-461 | a mint succeeds exactly when none of its calls fails, no replacement is stuck and the token is there |
| `IdentityOutcomes.OneFailureCostsNobodyElse` | internal/controller/builtin.go:197-213 | the mints of a pass fail together exactly when one does, and a user whose own calls go through is identified whatever the others' do |
| `IdentityOutcomes.IdentifiedUsersHoldTheirRoles` | internal/controller/builtin.go:358-461 | after a mint the three roles by name are bound to the account of the user, and the kubeconfig tells no token but the current one |
| `IdentityOutcomes.DroppedUserLeavesNothing` | internal/controller/builtin.go:210-332 | a user minted into a cluster without foreign objects of its names and later without an instance leaves no identity object after an error-free prune |
| `ModelKeys.KeyNamesItsProvider` | internal/gateway/modelkey.go:14-27 | a key's lower case begins with its provider and a slash, or is the bare provider of a blank id |
| `ModelKeys.KeyKeepsTheId` | internal/gateway/modelkey.go:14-27 | the key is the id without the white space around it: as it stands when it spells its provider and a slash in any case, otherwise behind them |
| `ModelKeys.DistinctProvidersServeDisjointRefs` | internal/server/handlers_llms.go:426-433 | two providers with different DNS-label names never serve one reference, whatever their ids |
| `ModelKeys.KeyIsIdempotentIffIdNotBlank` | internal/gateway/modelkey.go:14-27 | keying a key changes nothing exactly when the id is not blank or there is no provider |
| `ModelKeys.KeyIsIdempotentUnderAnyFold` | internal/gateway/modelkey.go:14-27 | the same under any lower-casing of single characters that leaves the slash alone |
| `ModelKeys.CelAgreesUnlessTheIdFoldsBeyondAscii` | internal/api/v1alpha1/agenttemplate_types.go:181-203 | the API server's reference equals the platform's exactly when the id's prefix needs no folding beyond ASCII |
| `ModelKeys.KelvinIdIsKeyedDifferently` | internal/api/v1alpha1/agenttemplate_types.go:181-203 | an accepted id on which the two differ |
| `Catalogue.ResolveModel` | internal/resolver/resolver.go:290-299 | the selection itself, exactly when some provider serves it |
| `Catalogue.ProviderModelRefs` | internal/server/handlers_llms.go:409-415 | the image of the model key over the provider's ids |
| `Catalogue.DroppedModelRefs` | internal/server/handlers_llms.go:434-451 | served before, not kept, and served by nobody else |
| `Catalogue.InstancesSelecting` | internal/server/handlers_llms.go:486-498 | the loop computes the selecting instances |
| `Catalogue.SelectingIsExact` | internal/server/handlers_llms.go:486-498 | exactly the builtin template's instances whose stored selection is one of the references |
| `Catalogue.NormalizeModels` | internal/server/handlers_llms.go:77-89 | the trimmed non-blank ids, each once |
| `Catalogue.Server.HandleAddLLM` | internal/server/handlers_llms.go:97-179 | reply and template of an add, refusals leaving the template |
| `Catalogue.Server.HandleUpdateLLM` | internal/server/handlers_llms.go:234-357 | reply and template of an update, refusals leaving the template |
| `Catalogue.Server.HandleDeleteLLM` | internal/server/handlers_llms.go:506-564 | reply and template of a delete, refusals leaving the template |
| `Catalogue.DroppedIsServedMinusKept` | internal/server/handlers_llms.go:417-433 | in a valid template the exclusion of other providers' references is never needed |
| `Catalogue.StepsKeepTheTemplateValid` | internal/server/handlers_llms.go:142-171 | every step keeps names unique within the cap, providers valid and the default empty or served |
| `Catalogue.ResolvesAfterIff` | internal/server/handlers_llms.go:297-335 | a committed step leaves a selection unresolved exactly when it loses the trimmed reference |
| `Catalogue.CommittedLosesNoStoredSelection` | internal/server/handlers_llms.go:475-498 | a committed step loses no reference an instance stores as it stands |
| `Catalogue.SelectionsSurviveUnlessStoredUntrimmed` | internal/resolver/resolver.go:203-222 | a selection that resolves before a step resolves after it, except exactly when it is stored untrimmed and its reference is lost |
| `Catalogue.UntrimmedSelectionIsStranded` | internal/server/handlers_llms.go:493-495 | a delete that is not refused and strands such a selection |
| `CatalogueAnswers.NormalizedKeepsTheOrder` | internal/server/handlers_llms.go:77-89 | the stored ids are the trimmed, non-blank ones in the order they were first asked for |
| `CatalogueAnswers.AddCommitsIff` | internal/server/handlers_llms.go:97-179 | an add commits exactly when the request is sound, the name free and a place left, and then appends the requested provider; a taken name is a conflict |
| `CatalogueAnswers.AddServesItsIds` | internal/server/handlers_llms.go:97-179 | a committed add serves every id it asked for, from its own endpoint under its own credential |
| `CatalogueAnswers.UpdateEditsOneProvider` | internal/server/handlers_llms.go:234-357 | a committed update edits one provider in its place; without a key the stored credential stays unless the provider becomes public, and the default goes only when this edit drops it |
| `CatalogueAnswers.UpdateAnswers` | internal/server/handlers_llms.go:234-357 | what an update is answered, in the order of its checks |
| `CatalogueAnswers.DeleteTakesOneProvider` | internal/server/handlers_llms.go:506-564 | a delete takes the provider of its name and no other, exactly unless an instance selects one of its references |
| `GatewayConfig.Consider` | internal/controller/openclawconfig_controller.go:67-97 | one provider: skipped, or claimed and rendered |
| `GatewayConfig.Merge` | internal/controller/openclawconfig_controller.go:54-105 | the templates, listed in any order, are sorted by name; the winning claims and the primary, for any templates and credentials |
| `GatewayConfig.WinnersAreDistinct` | internal/controller/openclawconfig_controller.go:46-53 | merged provider names are pairwise distinct |
| `GatewayConfig.FirstEligibleClaimantWins` | internal/controller/openclawconfig_controller.go:46-90 | a claim wins exactly when it is the first eligible one of its name |
| `GatewayConfig.EarliestTemplateWins` | internal/controller/openclawconfig_controller.go:46-90 | a provider wins its name exactly when it is its template's first eligible one and no template of an earlier name has one |
| `GatewayConfig.ListOrderDoesNotMatter` | internal/controller/openclawconfig_controller.go:54-58 | two lists of the same templates are merged in the same order |
| `GatewayConfig.Render` | internal/gateway/render.go:51-115 | the allow list is strictly sorted and equals the model map's keys and the image of the model key |
| `GatewayConfig.AliasNamesOneReference` | internal/gateway/render.go:54-84 | no alias names two references |
| `GatewayConfig.AliasSpellsOnlyAForeignReference` | internal/gateway/render.go:54-84 | an alias that is not its own key can spell only another provider's reference |
| `GatewayConfig.AliasIsAReferenceIff` | internal/gateway/render.go:54-84 | an alias is also a reference exactly when it is its own key, or another provider's name, a slash and an id that provider lists without its prefix |
| `GatewayConfig.AliasCanSpellAForeignReference` | internal/gateway/render.go:54-84 | two providers for which it does |
| `GatewayConfig.PrimaryIsAllowed` | internal/controller/openclawconfig_controller.go:91-105 | whenever a provider is rendered the primary is in the allow list |
| `GatewayConfig.WinnersRouteToThemselves` | internal/gateway/render.go:86-108 | each winner's name routes to its own endpoint |
| `GatewayConfig.AllowedIffAWinnerServesIt` | internal/controller/openclawconfig_controller.go:46-105 | a reference is allowed exactly when a provider that wins its name serves it |
| `GatewayConfig.ResolvedIsAllowedIffTheWinnerServesIt` | internal/resolver/resolver.go:285-299 | a reference some template serves is allowed exactly when the winner of that provider's name serves it too |
| `GatewayConfig.ResolvedSelectionMayNotBeAllowed` | internal/resolver/resolver.go:285-299 | a selection the resolver accepts that the allow list does not hold |
| `GatewayAnswers.WinnersAreRenderable` | internal/controller/openclawconfig_controller.go:62-90 | every provider rendered is one of a listed template, has an endpoint and models, and names no missing credential |
| `GatewayAnswers.EveryServableNameIsRendered` | internal/controller/openclawconfig_controller.go:62-90 | every name under which some template has such a provider is rendered |
| `GatewayAnswers.PrimaryIsTheFirstServedDefault` | internal/controller/openclawconfig_controller.go:84-105 | the primary is the default of the first winner that serves the default of its own template, else the first model of the first winner |
| `Calendar.DateOfDayNumber` | internal/schedule/cron.go:84-117 | day numbers and Gregorian dates are inverse |
| `Calendar.CommonDateRecurs` | internal/schedule/cron.go:104-117 | a date every year has comes again within 366 days of any day |
| `Calendar.WeekdayInMonthRecurs` | internal/schedule/cron.go:104-117 | every weekday falls in every month within 366 days of any day |
| `CronAnswers.WeekdaysAreTheTextbooks` | internal/schedule/cron.go:91-92 | the weekday of every date of the proleptic Gregorian calendar, by the textbook formula |
| `CronAnswers.DayNumberIs` | internal/schedule/cron.go:104-117 | the number of every date: its years of 365 days, the leap days before it, its month and its day |
| `Cron.ParseField` | internal/schedule/cron.go:20-49 | the loop's set is exactly the values the parts select, with the two a wrapping step leaves; None exactly for a bad part |
| `Cron.Parse` | internal/schedule/cron.go:52-79 | the five fields in order, Sunday as 0 and 7, None for any bad field or count |
| `Cron.ParsedInDomain` | internal/schedule/cron.go:20-79 | every parsed field has a value within its range and, outside it, at most what a wrapping step leaves in the dates |
| `Cron.DomAllMeansEveryDayIff` | internal/schedule/cron.go:84-98 | counting 31 day values means every day, exactly when no step of the field wraps or the days listed are neither 29 nor 31 |
| `Cron.WrappingStepIsTakenForEveryDay` | internal/schedule/cron.go:30-37 | an accepted expression that leaves out two days and counts as every day |
| `Cron.NextAfter` | internal/schedule/cron.go:106-115 | the least matching whole minute strictly after t within the window, or none in it |
| `Cron.NextAfterMonotone` | internal/schedule/cron.go:106-115 | a later time never yields an earlier occurrence |
| `CronAnswers.AcceptedIff` | internal/schedule/cron.go:20-79 | an expression is accepted exactly when it has five fields and each part is a star, a step of at least one, or a number within the bounds of its field |
| `CronAnswers.MatchesAsWritten` | internal/schedule/cron.go:84-102 | a minute matches exactly when the parts name its minute, hour and month and its day fires: by date or weekday when both are restricted, by both otherwise; for expressions whose date steps do not wrap |
| `CronCap.FoundWithinCap` | internal/schedule/cron.go:100-115 | a restricted weekday, or some allowed date of a common year, guarantees an occurrence within the window |
| `CronCap.CapLosesExactlyLeapDayOnly` | internal/schedule/cron.go:100-115 | the cap ever loses an occurrence exactly for expressions only 29 February satisfies |
| `CronCap.NothingFoundMeansNothingThere` | internal/schedule/cron.go:106-115 | for every other expression finding nothing means nothing ever matches |
| `Scheduler.Reconciler.PatchStatus` | internal/scheduler/scheduler.go:204-222 | field by field, a changed field is sent and an unchanged one keeps the server's value; a failure leaves the server's object |
| `Scheduler.Reconciler.RecordSkippedRun` | internal/scheduler/scheduler.go:320-348 | a skip advances LastRunTime only after a persisted Failed run |
| `Scheduler.Reconciler.Fire` | internal/scheduler/scheduler.go:151-281 | run, Task and events of one fire, for every outcome of every patch |
| `Scheduler.Reconciler.NextDue` | internal/scheduler/scheduler.go:99-116 | the next occurrence after the baseline, none for the zero time, and whether it is due |
| `Scheduler.Reconciler.Reconcile` | internal/scheduler/scheduler.go:52-94 | server and events of one reconcile: a requested run first, whose request is then cleared, otherwise the schedule |
| `Scheduler.FinishNamesThisRun` | internal/scheduler/scheduler.go:204-281 | when the finish patch lands the Task names this run, whether or not the start patch landed |
| `Scheduler.LateBaselineLosesTheName` | internal/scheduler/scheduler.go:204-222 | a baseline taken after the mutation would lose the name |
| `Scheduler.LastRunAdvancesOnlyWhenRecorded` | internal/scheduler/scheduler.go:320-348 | LastRunTime changes only with a recorded end, the skip path only with a persisted Failed run |
| `Scheduler.RunPhaseAfterRecordedFire` | internal/scheduler/scheduler.go:240-281 | after a recorded fire the TaskRun shows its outcome exactly when its own patch landed |
| `Scheduler.ManualRunRepeatsIffNotCleared` | internal/scheduler/scheduler.go:57-73 | with no new request, the next reconcile repeats a manual run exactly when the clearing patch failed, whether or not another was requested while it ran |
| `SchedulerOutcomes.RunShowsItsEnd` | internal/scheduler/scheduler.go:151-281 | the TaskRun after any fire, for every outcome of every patch: Failed exactly for an error or a skip |
| `SchedulerOutcomes.TaskShowsTheOutcome` | internal/scheduler/scheduler.go:151-348 | the Task after any fire: time, status and name of a recorded outcome, the name alone when only the start patch landed, otherwise as it was |
| `SchedulerOutcomes.ReconcileShowsTheNextRun` | internal/scheduler/scheduler.go:75-149 | only an enabled task with a valid expression fires on its schedule, and a scheduled reconcile shows the next occurrence, or none for a disabled or invalid one |
| `SchedulerRuns.RecordedOccurrencesNeverFireAgain` | internal/scheduler/scheduler.go:52-116 | over whole runs from any earlier LastRunTime, once an outcome is recorded every later cron fire is due strictly after it |
| `SchedulerRuns.FiresForTheEarliestDueMinute` | internal/scheduler/scheduler.go:99-116 | a cron fire is for the least matching minute after the baseline, so none is skipped |
| `SchedulerRuns.LostScheduleNeverFires` | internal/scheduler/scheduler.go:99-116 | a schedule the cap loses never fires, over any run |
| `ManagedBlock.SpliceSections` | internal/supervisor/supervisor.go:658-677 | the non-blank sections, trimmed, separated by blank lines, ending in a newline |
| `ManagedBlock.ReconcileManagedBlock` | internal/supervisor/supervisor.go:630-653 | the file with its block replaced, removed or added |
| `ManagedBlock.ReconcilePreservesAndExtracts` | internal/supervisor/supervisor.go:616-677 | text around the block survives up to trimming, and the block reads back as the trimmed body |
| `ManagedBlock.ReconcileIsIdempotent` | internal/supervisor/supervisor.go:616-677 | reconciling twice equals reconciling once exactly when the trimmed body holds no end marker |
| `ManagedBlock.AcceptedBodiesSettle` | internal/supervisor/supervisor.go:552-568 | a body the check accepts is not written a second time |
| `ManagedBlock.ValidateImpliesValidateRendered` | internal/instructions/policy.go:11-51 | what Validate accepts composes to a body ValidateRendered accepts, when persona, heading and separators fit the reserve |
| `ManagedBlock.Workspace.SyncAgentsFile` | internal/supervisor/supervisor.go:543-602 | the whole new file and the answer, for any entry at the path and any read or write error: a rejected body is skipped, an unchanged file not rewritten, anything else replaced by a regular file |
| `ManagedBlockFile.ReconciledReads` | internal/supervisor/supervisor.go:616-677 | the file after a reconcile, word for word: the text before, the marked body, the text after, set apart by blank lines |
| `ManagedBlockFile.RemovalReads` | internal/supervisor/supervisor.go:630-653 | with nothing to say the block goes and the text around it stays |
| `ManagedBlockFile.BodySays` | internal/supervisor/supervisor.go:531-539 | the body is the persona and, under its heading, the trimmed instructions when there are any |
| `ManagedBlockFile.InstructionsReadBack` | internal/supervisor/supervisor.go:531-653 | whatever the file held, the trimmed instructions stand word for word at the end of the block read back from it |
| `Sse.DrainBuffer` | web/src/api/sse.ts:99-117 | every complete block is delivered in order, the remainder kept |
| `Sse.ReadBody` | web/src/api/sse.ts:79-128 | what is delivered depends on the text alone, for every way of cutting it into chunks |
| `Sse.StreamSSE` | web/src/api/sse.ts:36-128 | what the caller sees for every kind of response |
| `Sse.CutOfAppend` | web/src/api/sse.ts:99-102 | text that arrives later only adds to what was left over |
| `Sse.EveryCallEnds` | web/src/api/sse.ts:84-128 | every call not cancelled or handed over shows a terminal; a synthetic one is last, single, and only without a message_done |
| `Sse.BlockReadsBack` | internal/server/handlers.go:302-310 | a written frame reads back as its event, a ping as nothing |
| `Sse.RoundTrip` | internal/server/handlers.go:302-310 | any frames and pings, in any chunks, are delivered as exactly those events in order |
| `Sse.TruncationKeepsAPrefix` | web/src/api/sse.ts:84-128 | a connection lost at any character delivers a prefix of the events sent, never a torn one |
| `SseAnswers.BrowserSeesEveryFrame` | web/src/api/sse.ts:79-128 | in any chunks the browser is shown each frame written, once, in order, under its type or as a message; then one terminal with its reason exactly when no frame was a message_done and the call was not cancelled |
| `SseAnswers.WireGrows` | internal/server/handlers.go:302-310 | what a frame and a ping add to the bytes on the wire |

## Left out

- Transport, HTTP, the Kubernetes client and its cache, files, process supervision and metrics: they are environment steps or parameters.
- JSON, YAML and hashing: opaque, injective encodings. A store's `decode` and `size` are parameters of `Grants`, a codec a parameter of `Sse`.
- Wall-clock time: timeouts are steps that may always happen; the Stop's wait is a finite sequence of ticks.
- Bytes against characters: lengths and caps count characters; UTF-8 decoding of a stream cut inside a character is not modelled.
- Pattern semantics of the allowlist: matching happens in the gateway.
- Liveness under fairness: termination is stated as explicit measures only.
- `Projector`: the narration clean-up, the extraction of text from raw tool results and JSON decoding arrive as fields of the decoded frames; a call is a value in the map, not an object with its own identity; the source's unused sawOutput flag is dropped.
- `Cron`: splitting, trimming and integer conversion of the expression; fields arrive as parsed parts, whose numbers are 64-bit.
- `Scheduler`: reads are fresh, prompt and template resolution always succeed, and a paused or invalid Task is not reconciled further.
- `Stop`: which records a settlement closes; the trace shows only that and when it runs. The capture of approvals before the abort is a read without an effect here.
- `Approvals`: whether a card reaches an open stream, the grant an allow-always stores, and a panic inside a decision.
- `Hub`: which frames a turn accepts by run id; every router that found a turn may write to its stream and finish it, which allows more than the source does.
- `Conns`: clients made by the bounded channel probe, which are never stored.
- `ExecPolicy`: an API process that restarts and so forgets its mark; fields of the approvals file that its typed form does not decode; the pause between attempts.
- `Grants`: an Add with a blank pattern or an oversized rule returns before the store is touched; the order of List; the owner reference of a created object.
- `InstanceObjects`: the template and runtime checks, the finalizer, the model-availability condition, a status write that fails, and the builders of the three objects. Reconcile starts after them.
- `Identity`: the builtin template and task templates; list calls that fail, which end the pass before it changes anything more; annotations a replaced binding keeps; names that differ only in what the hash already separates.
- `Catalogue`: sanitizing of a name and normalizing of an endpoint arrive done; the credential Secrets themselves; a failing template write, which changes nothing.
- `GatewayConfig`: the static scaffolding of the configuration, and the credential reference each route carries.
- `Sse`: an event handler that throws, and the difference between the two languages' white space at the ends of an encoded object.
- Composing template and user instructions, and the rest of what the resolver fills in, beyond the model it resolves.
- The one-shot stream mapper, the question relays, CRUD handlers, skill and credential syncing, and the views: simpler copies of what is modelled, or bound to libraries.
- HubRuns.WaitIdleReturnsOnlyWhenNoneIsRegistered: says nothing about the moment after the return, because another request may open a stream at once.
- Stop.SettlesOnlyAfterTheNamedRunIsGone: speaks of the run the Stop named; the session-wide form is false of the code, and Stop.SessionIsIdleAtTheSettlementIff says exactly when it holds.
