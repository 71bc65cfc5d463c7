# RayMe's live call path, verified

RayMe holds spoken calls with a character. This project models the state machines of a live call in Dafny and
proves what they promise over every run:

- **Peer lifecycle** (`PeerLifecycle`, `PeerDecisions`, `PeerAnswers`, `PeerSelection`, `PeerOwnership`,
  `PeerClosing`, `CallSessionLifecycle`). Candidate registration, commit and reject, engine switch, transport
  reconnect with its grace timer, and the terminal transition. No peer generation gets two different decisive answers
  and every answer is right, every peer connection is closed, retried or reported but for one exact case, a
  reconnecting call is never stuck but for another.
- **Terminal cleanup** (`TerminalCleanup`). The ledger of an ended call: nothing completed is replayed, retrying
  stops within 32 attempts, the failure record lists what is left. Composed with the lifecycle.
- **Durable call turns** (`CallTurns`, `CallService`). Fenced rows raced by owner, duplicates, reconcilers and
  hangup: at most one assistant message per turn, exactly when the row is completed.
- **Segment ledger and its client** (`SegmentLedger`, `SpeechTurn`). Idempotent numbered segments, and the client
  that sends them one at a time: a turn that ends normally was spoken in full.
- **Event outbox and microphone turns** (`EventOutbox`, `MicrophoneTurns`, `CallEvents`). Delivery in commit order
  around a reserved terminal slot, and transcripts ordered against the end of the call.
- **Outbound audio track** (`AudioTrack`). A credit-bounded queue between chunks and frames, with stops; real-time
  pacing.
- **Speech worker stream** (`QwenStream`). The producer against the validator that polices it, with exact and with
  rounded durations.
- **Segmentation** (`Segmenter`, `EndToEnd`). What is spoken is what is recorded, and every segment fits the
  generation limits.
- **Voice-activity window** (`VadWindow`).

Each state machine is a pure step function over a record of state, one step per lock-guarded section or per stretch
of code between two awaits, with invariants and theorems about all runs of those steps. Beside it stands a class in
the source's own form, whose methods update fields in place and are proved to do exactly the steps.

Where the code does not keep a property for every input, the project states when it does and gives a run that
breaks it: a connection replaced by a promotion whose one close raises (`PeerClosing.PeerIsLostExactly`), switching
engines on the connection that is already active (`PeerOwnership.OwnershipKeptExactly`) and the reconnect that can
strand (`PeerOwnership.ReconnectKeptExactly`), a reject that loses against a promotion and is told "stale"
(`PeerAnswers.EveryAnswerIsRight`), cleanup work left behind when the terminal event is never published
(`TerminalCleanup.EveryPeerIsClosedOrReported`), a finish request that says completed without speech
(`CallTurns.GapExactly`), a segment number skipped by an abandoned put (`SpeechTurns.ClaimReplyExactly`), a poll that
sets the shared state of a finished turn back
(`CallTurns.MemoryStaysFinishedExactly`), an `ai_done` already in delivery when its turn is cancelled
(`EventOutbox.LateSpeechExactly`), a cancelled ledger whose final segment still commits
(`SegmentLedger.CancelledLeavesExactly`), one stale frame after a stop (`AudioTrack.StaleFrameExactly`), rounded
durations over the ceiling (`QwenStream.AcceptedExactly`), and a segment longer than 8000 characters
(`GenerationLimits.AcceptedExactly`).

Check the whole project with `dafny verify dfyconfig.toml`.

## Model

| member | source | states |
|---|---|---|
| `PeerDecisions.OneDecisiveAnswer` | ai-backend/app/call/session.py:1096-1193 | over every run of commits, rejects, expiries, newer offers, switch completions, reconnects and hangups, two decisive answers for one generation are equal |
| `PeerDecisions.CommittedWasPromoted` | ai-backend/app/call/session.py:1096-1148 | "committed" is answered only for a generation that was active at some point of the run |
| `PeerDecisions.RefusedWasNeverPromoted` | ai-backend/app/call/session.py:1150-1193 | a generation answered "rejected" or "failed" is active at no point of the run |
| `PeerDecisions.LifeInvNext` | ai-backend/app/call/session.py:842-881 | every lifecycle step keeps: a candidate exists only in stable/reconnecting with the current epoch and the newest, undecided generation; no generation is decided twice; ended, terminal phase and ledger coincide |
| `PeerDecisions.WorldInvRun` | ai-backend/app/call/session.py:1096-1193 | the same for whole runs with suspended commit and reject requests |
| `PeerDecisions.WorldRunsLifecycle` | ai-backend/app/call/session.py:1096-1193 | every run with requests is a run of the lifecycle steps, so what holds of the latter holds of it |
| `PeerAnswers.EveryAnswerIsRight` | ai-backend/app/call/session.py:1096-1182 | in every run each answer is right at the step that gives it: a commit of the generation then active is told "committed" only; "rejected" exactly by the reject that clears the candidate; "in progress", "not connected" and, to a commit, "stale" only if the generation is being switched to, pending, or none of them; a reject that lost against a promotion is told "stale" |
| `PeerAnswers.RejectCanLoseRace` | ai-backend/app/call/session.py:1150-1164 | the seven-step run of such a reject |
| `PeerAnswers.PromotingCommitSaysCommitted` | ai-backend/app/call/session.py:1132-1148 | a commit whose step promotes its generation gets "committed" as its first and next answer, whatever happens in between, unless closing the replaced peer raises |
| `PeerAnswers.DecidedRequestIsTold` | ai-backend/app/call/session.py:1096-1125 | a request that waits for a finished switch task, or for the close after a promotion, is told how its generation was decided, however late, exactly when it goes on |
| `PeerAnswers.UndisturbedCommit` | ai-backend/app/call/session.py:1096-1148 | from every reachable state with a candidate of the same selection, an undisturbed commit promotes it, closes the old peer and answers "committed" |
| `PeerAnswers.UndisturbedSwitch` | ai-backend/app/call/session.py:1342-1462 | the same for a candidate with another selection, through its switch |
| `PeerAnswers.UndisturbedReject` | ai-backend/app/call/session.py:1150-1164 | an undisturbed reject clears the candidate, hands its peer to a cleanup and answers "rejected" |
| `PeerSelection.SelectionFollowsPromotions` | ai-backend/app/call/session.py:1326-1333 | over every run the selection is that of the last generation that became active and brought one, else the first; candidates, switches and the active peer are what was offered |
| `PeerSelection.ActivePeerWasOffered` | ai-backend/app/call/session.py:1326-1333 | a live call talks to the connection its active generation was registered with |
| `PeerSelection.SwitchDecidesTheCall` | ai-backend/app/call/session.py:1342-1512 | the end of a switch task without an error makes the candidate active with its selection and the right conversational state; with an error the call fails and its ledger has the candidate and an unclosed old peer |
| `PeerSelection.EndIsForGood` | ai-backend/app/call/session.py:4312-4445 | ending a live call leaves the state asked for, hands over peer, candidate and both switch peers, and nothing changes them afterwards |
| `PeerOwnership.NoPeerIsDropped` | ai-backend/app/call/session.py:833-965 | in every run each registered peer is active, candidate, with an unfinished switch, in a cleanup of its own, being closed, closed, or in the terminal ledger; or a promotion replaced it and its one close raised |
| `PeerOwnership.TerminalCallHandsOverEveryPeer` | ai-backend/app/call/session.py:4312-4445 | after the end, with no switch task left, every registered peer is in a cleanup of its own, being closed, closed, in the ledger, or lost in that one way |
| `PeerClosing.PeerIsLostExactly` | ai-backend/app/call/session.py:1326-1340 | with a new connection for every offer: a registered peer is nowhere any more if and only if a promotion replaced it and the one close of it raised |
| `PeerClosing.PromotionCanLosePeer` | ai-backend/app/call/session.py:1338-1339 | three steps of a live call after which the replaced connection is neither closed nor owned by anything |
| `PeerClosing.FailedSwitchCloseReachesLedger` | ai-backend/app/call/session.py:1411-1433 | a peer whose close by a switch raised is in the terminal ledger once the switch tasks are done |
| `PeerClosing.TerminalTakesWholeSwitch` | ai-backend/app/call/session.py:4312-4360 | when the call ends during a switch, the ledger takes over both its peers |
| `PeerClosing.NoPeerHasTwoCleanups` | ai-backend/app/call/session.py:833-965 | no peer is at once in a cleanup of its own and in the ledger |
| `PeerOwnership.GenerationsGrow` | ai-backend/app/call/session.py:842-881 | epoch, active generation and newest generation never decrease, and the active one never passes the newest |
| `PeerOwnership.OwnershipKeptExactly` | ai-backend/app/call/session.py:1242-1333 | the switching invariant (owner, task, transaction set exactly while switching; one switch task, the transaction) and the timer invariant survive a step if and only if the step is not a lost transport interrupting a switch to the peer that is already active |
| `PeerOwnership.OwnershipRun` | ai-backend/app/call/session.py:1366-1394 | all lifecycle invariants over whole runs without such a step |
| `PeerOwnership.NewPeersKeepOwnership` | ai-backend/app/call/session.py:1242-1333 | runs that register a new connection for every offer contain no such step |
| `PeerOwnership.OwnershipLostIsUnreachable` | ai-backend/app/call/session.py:1366-1394 | in those runs the non-terminal "ownership lost" branch of switch completion is never taken |
| `PeerOwnership.ReconnectIsNeverStuck` | ai-backend/app/call/session.py:4851-4979 | a reconnecting call has an admitted backfill, or an armed timer with its own epoch and peer whose firing ends the call |
| `PeerOwnership.WorstLossDecides` | ai-backend/app/call/session.py:4900-4979 | after any sequence of loss reports the timer ends the call as failed if and only if one report said failed |
| `PeerOwnership.ReconnectEndsExactly` | ai-backend/app/call/session.py:4935-4979 | a deferred loss ends the call if and only if it is reconnecting without an admitted backfill and the request names no other epoch or peer; as failed or ended by the loss |
| `PeerOwnership.RecoversExactly` | ai-backend/app/call/session.py:4985-5021 | a recovery report makes the call stable if and only if it is reconnecting and the report is about the active peer and generation; otherwise nothing changes |
| `PeerOwnership.BackfillsAreCounted` | ai-backend/app/call/session.py:1699-1850 | in every run a reconnect waits for exactly the backfills admitted on the live call and not ended |
| `PeerOwnership.BackfillRearmsTimer` | ai-backend/app/call/session.py:1808-1850 | the end of the last backfill arms the timer again |
| `PeerOwnership.TimerEndsOnlyItsOwnReconnect` | ai-backend/app/call/session.py:4921-4979 | a timer that ends the call does so within the reconnect it was armed for: same epoch, reconnecting throughout |
| `PeerOwnership.RecoverUndoesLoss` | ai-backend/app/call/session.py:4985-5021 | recovering at once undoes a lost transport up to a new epoch and a timer left to run out |
| `PeerOwnership.ReconnectKeptExactly` | ai-backend/app/call/session.py:4851-4979 | the guarantee of that timer or backfill survives a step if and only if the step does not interrupt a switch to the active peer itself while a reconnect timer is armed |
| `PeerOwnership.ReconnectKeptInRuns` | ai-backend/app/call/session.py:4851-4979 | the same in every run up to the first such interruption: the guarantee holds, and exactly that step with a timer armed takes it away |
| `PeerOwnership.RecordedGenerationGrows` | ai-backend/app/call/session.py:1184-1193 | in every run the generation of the recorded outcome never goes back |
| `PeerOwnership.SelfSwitchLosesOwnership` | ai-backend/app/call/session.py:1242-1333 | three steps that register the active peer again and lose the switch on a live call |
| `PeerOwnership.SelfSwitchCanStrandReconnect` | ai-backend/app/call/session.py:4851-4979 | five such steps after which a reconnect has no timer and no backfill |
| `CallSessionLifecycle.CallSession.MarkPeerConnectionPending` | ai-backend/app/call/session.py:833-898 | registers, supersedes or refuses a candidate exactly as the lifecycle step; refusal on a terminal call, closing during a switch |
| `CallSessionLifecycle.CallSession.RejectPendingPeerConnection` | ai-backend/app/call/session.py:1622-1665 | clears the candidate only when peer and generation match |
| `CallSessionLifecycle.CallSession.AcceptPendingPeerConnection` | ai-backend/app/call/session.py:1211-1337 | the locked part: starts a switch, promotes, or refuses; the whole new state and the peer left to close |
| `CallSessionLifecycle.CallSession.CloseReplacedPeer` | ai-backend/app/call/session.py:1338-1339 | the one close of the replaced peer: closed, or given up when it raises |
| `CallSessionLifecycle.CallSession.StartPeerSwitchLocked` | ai-backend/app/call/session.py:1297-1325 | the switch transaction with its previous peer, task and retiring generation |
| `CallSessionLifecycle.CallSession.InstallCandidateLocked` | ai-backend/app/call/session.py:1326-1333 | the candidate becomes the active peer, generation and selection |
| `CallSessionLifecycle.CallSession.CompleteTransportReconnectLocked` | ai-backend/app/call/session.py:5006-5021 | every reconnect field is cleared and the saved state returns |
| `CallSessionLifecycle.CallSession.RunPeerSwitchCleanup` | ai-backend/app/call/session.py:1514-1572 | the fallible cleanup; an old peer that could not be closed stays with the switch |
| `CallSessionLifecycle.CallSession.FinishPeerSwitch` | ai-backend/app/call/session.py:1342-1512 | commit, failure or abandonment, by ownership and cleanup errors |
| `CallSessionLifecycle.CallSession.CommitPeerSwitch` | ai-backend/app/call/session.py:1434-1462 | the accepted peer, generation and selection take over |
| `CallSessionLifecycle.CallSession.FailPeerSwitch` | ai-backend/app/call/session.py:1411-1433 | a failed switch ends the call with the accepted peer as the active one |
| `CallSessionLifecycle.CallSession.AbandonPeerSwitch` | ai-backend/app/call/session.py:1374-1490 | a lost switch gives up its fields and closes its peer unless somebody owns it |
| `CallSessionLifecycle.CallSession.RecordPeerSwitchOutcomeLocked` | ai-backend/app/call/session.py:1184-1193 | an older generation never overwrites a newer outcome |
| `CallSessionLifecycle.CallSession.CollectTerminalPeers` | ai-backend/app/call/session.py:4312-4360 | the extra peers of the ledger: given ones and those of an unfinished switch, without active and candidate |
| `CallSessionLifecycle.CallSession.TransitionTerminalLocked` | ai-backend/app/call/session.py:4312-4445 | the terminal transition, once; the ledger takes over the peers |
| `CallSessionLifecycle.CallSession.BeginTransportReconnect` | ai-backend/app/call/session.py:4851-4919 | ignored losses, a new or a continued reconnect, "failed" over "closed", one timer |
| `CallSessionLifecycle.CallSession.ExpirePeerReconnectGrace` | ai-backend/app/call/session.py:4921-4933 | a timer that fires resolves with its own epoch and peer |
| `CallSessionLifecycle.CallSession.ResolveDeferredConnectionState` | ai-backend/app/call/session.py:4935-4979 | stale resolutions change nothing; a backfill defers; otherwise the call ends |
| `CallSessionLifecycle.CallSession.RecoverActiveTransport` | ai-backend/app/call/session.py:4985-5004 | only the peer under grace recovers the transport |
| `CallSessionLifecycle.CallSession.AdmitReconnectBackfill` | ai-backend/app/call/session.py:1699-1815 | a backfill is admitted only on a live call |
| `CallSessionLifecycle.CallSession.FinishReconnectBackfill` | ai-backend/app/call/session.py:1828-1850 | the last backfill re-arms a missing timer |
| `CallSessionLifecycle.CallSession.PeerSwitchGenerationOutcome` | ai-backend/app/call/session.py:1166-1182 | the durable outcome of a generation |
| `TerminalCleanup.EveryPeerIsClosedOrReported` | ai-backend/app/call/session.py:4312-4445 | lifecycle and cleanup together: a peer in the ledger of an ended call is closed by exactly one cleanup attempt, or failed in all 32 and is named by the failure record, if and only if the terminal event is published or an attempt before that closes the peer |
| `TerminalCleanup.UnpublishedEndForgetsPeer` | ai-backend/app/call/session.py:4467-4477 | a hangup with failing closes and an event that is never delivered: the active peer is neither closed nor reported |
| `TerminalCleanup.FailedSwitchCloseIsRetried` | ai-backend/app/call/session.py:1545-1554 | in particular the old peer of a switch whose close raised |
| `OwnedPeerCleanup.ClosePeerUntilResolved` | ai-backend/app/call/session.py:916-965 | a peer with a cleanup of its own: closed by the first attempt that succeeds, or reported after exactly 32 failures |
| `CleanupLedger.PendingOnlyShrinks` | ai-backend/app/call/session.py:4529-4733 | pending steps and handoffs only shrink, and cleanups plus handoffs never grow |
| `CleanupLedger.NewCleanupsComeFromHandoffs` | ai-backend/app/call/session.py:4723-4732 | a cleanup that appears comes from a handoff that the attempt ended |
| `CleanupLedger.LogExactly` | ai-backend/app/call/session.py:4529-4733 | a step is tried in an attempt if and only if every earlier attempt on it failed |
| `CleanupLedger.NoCompletedStepIsReplayed` | ai-backend/app/call/session.py:4447-4481 | after the attempt that completed a step it is never tried again |
| `CleanupLedger.CleanupEnds` | ai-backend/app/call/session.py:4735-4783 | transaction and retries end within 32 attempts, and only a used-up limit leaves work |
| `CleanupLedger.LeftOverExactly` | ai-backend/app/call/session.py:4735-4783 | a step is left over if and only if all 32 attempts on it failed |
| `CleanupLedger.CompletedExactlyOnce` | ai-backend/app/call/session.py:4529-4733 | every step not left over is completed by exactly one attempt |
| `CleanupLedger.HandoffPendingExactly` | ai-backend/app/call/session.py:4686-4732 | a handoff is pending after n attempts if and only if every wait found it neither settled nor finished |
| `CleanupLedger.CleanupPendingExactly` | ai-backend/app/call/session.py:4659-4732 | a lease cleanup is pending after n attempts if and only if it was there or came with a finished handoff, and no later wait found it released |
| `CleanupLedger.TransactionExactly` | ai-backend/app/call/session.py:4447-4481 | the transaction makes attempts up to the first that leaves nothing pending or in which something times out |
| `CleanupLedger.NoIdleRetry` | ai-backend/app/call/session.py:4735-4783 | every further attempt of the background task finds work left |
| `TerminalCleanup.EveryPeerHasItsOwnStep` | ai-backend/app/call/session.py:4398-4436 | distinct peers of the ledger have distinct steps, and every peer step is one peer's |
| `TerminalCleanup.RecordNamesExactly` | ai-backend/app/call/session.py:4786-4812 | the record names each kind of work if and only if some is left, with its count |
| `TerminalCleanup.Cleanup.constructor` | ai-backend/app/call/session.py:4398-4436 | the pending work of a new ledger is one step per peer taken over, the tracks, the lease and the prompt leases |
| `TerminalCleanup.Cleanup.TryFlagged` | ai-backend/app/call/session.py:4536-4590 | a flag stays up exactly when its step failed; log and timeout flag |
| `TerminalCleanup.Cleanup.TryEach` | ai-backend/app/call/session.py:4591-4633 | after the loop exactly the failed entries are left in the list |
| `TerminalCleanup.Cleanup.WaitForCleanups` | ai-backend/app/call/session.py:4659-4685 | exactly the unreleased cleanups are left |
| `TerminalCleanup.Cleanup.WaitForHandoffs` | ai-backend/app/call/session.py:4686-4732 | settled handoffs leave, finished ones leave their unreleased cleanup behind, once |
| `TerminalCleanup.Cleanup.RunTerminalCleanup` | ai-backend/app/call/session.py:4529-4733 | one attempt does the ledger step |
| `TerminalCleanup.Cleanup.RunTerminalTransaction` | ai-backend/app/call/session.py:4447-4481 | at most the given number of attempts, none after nothing is pending or a step timed out |
| `TerminalCleanup.Cleanup.RetryTerminalCleanupUntilResolved` | ai-backend/app/call/session.py:4735-4783 | ends with nothing pending and no failure, or with 32 attempts and a record of exactly what is left |
| `TerminalCleanup.Cleanup.FinishTerminalCleanup` | ai-backend/app/call/session.py:4447-4481 | the transaction, and the retries if the terminal event was published and work is left |
| `TerminalCleanup.Cleanup.PendingSteps` | ai-backend/app/call/session.py:4786-4812 | the record lists each pending kind with its count |
| `CallTurns.TerminalIsAbsorbing` | web-ui/server/app/domain/call_service.py:455-504 | completed, failed and cancelled rows never change again, under any interleaving |
| `CallTurns.OwnerIsFixed` | web-ui/server/app/domain/call_service.py:259-374 | a row keeps its request and, while active, its first fencing token |
| `CallTurns.OnlyTheOwnerCompletes` | web-ui/server/app/domain/call_service.py:716-868 | a row becomes completed only by a step of the token it holds |
| `CallTurns.CreatedAtMostOnce` | web-ui/server/app/domain/call_service.py:259-374 | of all reservations of a turn at most one is told that it created it |
| `CallTurns.DuplicateLearnsExactly` | web-ui/server/app/domain/call_service.py:441-453 | every later reservation of a turn learns the state its row is in afterwards and whether its request made the row, unless the call has ended |
| `CallTurns.UnconfirmedReservation` | web-ui/server/app/domain/call_service.py:305-374 | a reservation whose commit was lost or raised leaves no owner, and a row only if the commit took effect |
| `CallTurns.LeaseProtects` | web-ui/server/app/domain/call_service.py:455-552 | for a whole lease after a reservation or recorded user speech no reconciler, poll or duplicate changes the row, whatever happens in between, unless the owner is registered and done |
| `CallTurns.FinalStateSaysWhy` | web-ui/server/app/domain/call_service.py:455-957 | in every run a terminal row's state is what the step that ended it leaves: completed by a committed answer, as asked by a finish request, failed as stale, cancelled by a hangup; memory agrees where the step tells it |
| `CallTurns.FinishedAsAsked` | web-ui/server/app/domain/call_service.py:832-868 | a finish request that takes effect leaves the state it asked for, for good, and in memory if its commit applied |
| `CallTurns.AppliedStepsAgree` | web-ui/server/app/domain/call_service.py:305-868 | when an owner's step applies, memory has the state of the row it wrote |
| `CallTurns.CompletedIsNeverClaimed` | web-ui/server/app/domain/call_service.py:716-740 | a turn whose completion applied is never claimed again |
| `CallTurns.OneClaimAtATime` | web-ui/server/app/domain/call_service.py:716-740 | until a claimed turn is checked, committed or aborted no other claim changes anything |
| `CallTurns.CheckedClaimIsCurrent` | web-ui/server/app/domain/call_service.py:746-753 | after the check a pending claim is the registered owner's on a live call, and no other claim is released |
| `CallTurns.SpokenWasPlayed` | web-ui/server/app/domain/call_service.py:716-740 | an assistant message comes from a claim that reported its playout, in every run |
| `CallTurns.InvRun` | web-ui/server/app/domain/call_service.py:259-374 | owner and lease are set exactly in reserved/running, message ids name the turn's own messages, the end record is last |
| `CallTurns.MessagesAreExactlyTheRows` | web-ui/server/app/domain/call_service.py:659-868 | each turn has at most one user and one assistant message, in that order, exactly when its row names them; nothing follows the end record |
| `CallTurns.CompletedWithoutMessageExactly` | web-ui/server/app/domain/call_service.py:832-868 | one step makes a completed row without a message if and only if it is a finish request that says completed, for a row its caller owns, and commits |
| `CallTurns.GapExactly` | web-ui/server/app/domain/call_service.py:832-868 | the same for whole runs |
| `CallTurns.AssistantMessageIffCompleted` | web-ui/server/app/api/calls.py:796-872 | when completed is said only after the turn's message was recorded, as the stream does, a turn has an assistant message if and only if its row is completed, in every run |
| `CallTurns.SpeechFirstLeavesNoGap` | web-ui/server/app/api/calls.py:857-872 | such a finish request finds the row terminal and changes nothing |
| `CallTurns.FinishCanCompleteWithoutSpeech` | web-ui/server/app/domain/call_service.py:832-868 | a concrete run: finish says completed for a turn nobody spoke in |
| `CallTurns.NothingIsSaidAfterTheEnd` | web-ui/server/app/domain/call_service.py:904-957 | once ended_at is set no turn is added and the message log gains at most the end record |
| `CallTurns.HangupEndsEveryTurn` | web-ui/server/app/domain/call_service.py:929-957 | after the hangup's update every row of the call is terminal, for good |
| `CallTurns.HangupClearsMemory` | web-ui/server/app/domain/call_service.py:919-927 | the hangup leaves no turn active in memory and takes exactly the owners of active turns away |
| `CallTurns.EndedExactly` | web-ui/server/app/domain/call_service.py:904-918 | the call has ended if and only if somebody ended it |
| `CallTurns.StaleCheckExactly` | web-ui/server/app/domain/call_service.py:455-504 | a current row is failed if and only if its owner is registered and dead, or not registered and its lease has run out |
| `CallTurns.StaleSnapshotIsFenced` | web-ui/server/app/domain/call_service.py:380-406 | however old the row a poll holds, it ends only an active row that still has that owner and is expired or orphaned |
| `CallTurns.StaleTurnIsDropped` | web-ui/server/app/domain/call_service.py:455-504 | a turn failed as stale loses its owner in memory, which learns that it failed |
| `CallTurns.NoTurnOutlivesItsLease` | web-ui/server/app/domain/call_service.py:506-552 | a lease after its last renewal every active turn can be failed, locally unless its owner lives, by another process in any case |
| `CallTurns.UndisturbedOwnerCompletes` | web-ui/server/app/domain/call_service.py:716-820 | the owner's five sections in a row complete the turn and append both messages |
| `CallTurns.PollCanRegressMemory` | web-ui/server/app/domain/call_service.py:380-406 | the seven-step run in which a poll that read the running row sets the shared state back after the turn completed |
| `CallTurns.MemoryStaysFinishedExactly` | web-ui/server/app/domain/call_service.py:380-406 | over every run: the shared state of a finished turn is active again at some point if and only if some poll publishes an active row that does not look stale to it; the row stays terminal |
| `CallService.CallService.ReserveCallTurn` | web-ui/server/app/domain/call_service.py:259-374 | the reservation step and its answer, with lost, applied and recovered commits |
| `CallService.CallService.InsertReservation` | web-ui/server/app/domain/call_service.py:305-374 | a new row, or what a failed commit leaves of it |
| `CallService.CallService.RecoverReservation` | web-ui/server/app/domain/call_service.py:341-369 | a row committed although the commit raised is ended if recovery succeeds |
| `CallService.CallService.ExistingTurnReservation` | web-ui/server/app/domain/call_service.py:441-453 | a duplicate learns the state, refreshed when the owner is stale |
| `CallService.CallService.TerminalizeStaleTurnIfNeeded` | web-ui/server/app/domain/call_service.py:455-504 | guards, guarded update and refresh |
| `CallService.CallService.DiscardTurnOwner` | web-ui/server/app/domain/call_service.py:598-609 | only the given owner is dropped |
| `CallService.CallService.RecordReservedUserSpeech` | web-ui/server/app/domain/call_service.py:659-705 | user message and running row together, or nothing |
| `CallService.CallService.ClaimCompletedSpeech` | web-ui/server/app/domain/call_service.py:716-740 | the claim on a turn, refused unless running, owned and not yet claimed |
| `CallService.CallService.CheckCompletedSpeech` | web-ui/server/app/domain/call_service.py:746-753 | the claim is given up when the call ended or the owner changed |
| `CallService.CallService.CommitCompletedSpeech` | web-ui/server/app/domain/call_service.py:763-806 | assistant message and completed row together, or nothing; the claim is released |
| `CallService.CallService.FinishCallTurn` | web-ui/server/app/domain/call_service.py:832-868 | the row is ended only for its owner |
| `CallService.CallService.CallTurnStatus` | web-ui/server/app/domain/call_service.py:380-406 | a poll with a row read before the lock |
| `CallService.CallService.DropActiveOwners` | web-ui/server/app/domain/call_service.py:919-927 | every turn memory calls active is cancelled there and loses its owner |
| `CallService.CallService.EndActiveRows` | web-ui/server/app/domain/call_service.py:929-957 | one update over the table and one end record |
| `SegmentLedger.InvRun` | ai-backend/app/call/session.py:3236-3326 | in every reachable ledger the committed ordinals are exactly those below next, ordinals and identities are in bijection, a final segment is last, only an uncommitted segment is held, no attempt is issued twice |
| `SegmentLedger.OneUncommitted` | ai-backend/app/call/session.py:3294-3326 | at most one segment is uncommitted and it sits at next |
| `SegmentLedger.CommittedForever` | ai-backend/app/call/session.py:3464-3480 | a committed segment and its response never change |
| `SegmentLedger.IdentifiedRetryExactly` | ai-backend/app/call/session.py:3250-3275 | an identified retry of a committed segment gets that response if the content matches and a conflict otherwise, however much later |
| `SegmentLedger.UnidentifiedRetryIsNew` | ai-backend/app/call/session.py:3250-3262 | a request without identity and ordinal never gets a cached response: it is the next segment, or refused |
| `SegmentLedger.AttemptsNeverRepeat` | ai-backend/app/call/session.py:3448-3462 | no two issued attempts are equal, generation included |
| `SegmentLedger.ReissueNeedsRelease` | ai-backend/app/call/session.py:3276-3292 | in every run, between two attempts on a segment its holder released the earlier one on an active turn |
| `SegmentLedger.HeldSegmentWaits` | ai-backend/app/call/session.py:3276-3281 | while an attempt is out on an active turn every matching claim waits and every other one with that identity conflicts |
| `SegmentLedger.DuplicateWaits` | ai-backend/app/call/session.py:3276-3281 | a duplicate of a segment being generated waits, whatever claims and disconnects come in between |
| `SegmentLedger.ReleasedSegmentRetries` | ai-backend/app/call/session.py:3282-3292 | a released segment is generated again by the first matching claim, with the next generation |
| `SegmentLedger.RetryGetsItsResponse` | ai-backend/app/call/session.py:3464-3480 | the response given with a commit is what every matching retry gets, whatever happens in between |
| `SegmentLedger.NewSegmentExactly` | ai-backend/app/call/session.py:3294-3326 | an unknown segment is generated if and only if the turn is active, no other ordinal is named and everything before is committed; otherwise conflict or turn over |
| `SegmentLedger.CompletedIsAbsorbing` | ai-backend/app/call/session.py:3502-3511 | a completed ledger never changes |
| `SegmentLedger.CancelledLeavesExactly` | ai-backend/app/call/session.py:3464-3480 | a cancelled ledger leaves that state if and only if its final segment, already generating, commits |
| `SegmentLedger.CancelledTurnCanComplete` | ai-backend/app/call/session.py:3464-3480 | the three steps in which it does |
| `TtsTurnLedger.TtsTurnLedger.ClaimExisting` | ai-backend/app/call/session.py:3263-3292 | conflict, cached response, wait, retry or refusal for a known identity |
| `TtsTurnLedger.TtsTurnLedger.ClaimTtsSegmentLocked` | ai-backend/app/call/session.py:3236-3326 | the claim and its answer; keeps the invariant |
| `TtsTurnLedger.TtsTurnLedger.CommitTtsSegment` | ai-backend/app/call/session.py:3464-3480 | the held segment is committed whatever the turn's state; keeps the invariant |
| `TtsTurnLedger.TtsTurnLedger.ReleaseTtsSegmentAttempt` | ai-backend/app/call/session.py:3482-3496 | a segment returns to reserved only while active and in flight; keeps the invariant |
| `TtsTurnLedger.TtsTurnLedger.CancelTtsTurnLocked` | ai-backend/app/call/session.py:3502-3511 | every uncommitted segment is dropped unless the turn is completed; keeps the invariant |
| `SpeechTurns.InvRun` | web-ui/server/app/domain/ai_backend_client.py:279-319 | one invariant of client, wire and ledger for every interleaving of submissions, answers, timeouts, releases and cancellations |
| `SpeechTurns.ClaimReplyExactly` | web-ui/server/app/domain/ai_backend_client.py:279-287 | a request that reaches the ledger is told to generate, unless the turn is over or its number is not its place among those sent |
| `SpeechTurns.SingleProducerNeverConflicts` | web-ui/server/app/domain/ai_backend_client.py:208-232 | without an abandoned put no claim conflicts, waits or replays |
| `SpeechTurns.ArrivalsAreContiguous` | web-ui/server/app/domain/ai_backend_client.py:279-319 | the j-th accepted claim is for segment j, with the content of the j-th submission |
| `SpeechTurns.NormalNeedsPlayout` | web-ui/server/app/domain/speech_terminal.py:21-70 | over every run: a normal end means that each segment was answered in order, queued, and the final one with completed playout; with no finished cancellation the converse holds too |
| `SpeechTurns.StatusSaysWhy` | web-ui/server/app/domain/speech_terminal.py:21-70 | in every run the final status is that of the answer, failed call or cancellation that set it, and only a cancellation after a normal end changes it |
| `SpeechTurns.FailedCallEnds` | web-ui/server/app/domain/ai_backend_client.py:289-304 | a call that fails on the client's side ends the turn in an error and touches nothing else |
| `SpeechTurns.CancellationEnds` | web-ui/server/app/domain/ai_backend_client.py:230-256 | in every state a cancellation ends the turn, at once if the worker was calling; only an error stays |
| `SpeechTurns.UndisturbedSegmentIsSpoken` | web-ui/server/app/domain/ai_backend_client.py:208-319 | from every reachable idle state an undisturbed segment is submitted, generated, committed and acknowledged; the final one ends the turn normally |
| `SpeechTurns.AbandonedPutConflicts` | web-ui/server/app/domain/ai_backend_client.py:208-232 | an abandoned put skips a number, so that the next segment meets a conflict and the turn fails |
| `SpeechTurns.QueueIsBounded` | web-ui/server/app/domain/ai_backend_client.py:208-232 | at most two segments wait in the client, in every run |
| `SpeechTurns.NextIsAcknowledgedOrOneMore` | web-ui/server/app/domain/ai_backend_client.py:289-319 | the ledger's next ordinal is the number acknowledged to the client, or one more |
| `SpeechTurns.NormalMeansSpokenInFull` | web-ui/server/app/domain/ai_backend_client.py:289-319 | a normal end means the completed ledger holds exactly the submissions, committed in order, the last and only the last being final |
| `SpeechTurnClient.SpeechTurn.NewSubmission` | web-ui/server/app/domain/ai_backend_client.py:279-287 | numbers a segment only while the turn is open |
| `SpeechTurnClient.SpeechTurn.PutOffered` | web-ui/server/app/domain/ai_backend_client.py:208-232 | the put, the closing by the final segment and the late refusal |
| `SpeechTurnClient.SpeechTurn.TakeNext` | web-ui/server/app/domain/ai_backend_client.py:289-297 | takes the oldest segment, or stops after a terminal |
| `SpeechTurnClient.SpeechTurn.ObserveResponse` | web-ui/server/app/domain/ai_backend_client.py:311-319 | the terminal a response leads to, by finality and playout flag |
| `SpeechTurnClient.SpeechTurn.CallFailed` | web-ui/server/app/domain/ai_backend_client.py:298-310 | an error terminal; what is queued is discarded |
| `SpeechTurnClient.SpeechTurn.BeginCancel` | web-ui/server/app/domain/ai_backend_client.py:234-241 | closes, stops the worker and discards |
| `SpeechTurnClient.SpeechTurn.EndCancel` | web-ui/server/app/domain/ai_backend_client.py:250-256 | a normal end becomes a cancelled one |
| `SpeechTurnClient.SpeechTurn.DiscardPending` | web-ui/server/app/domain/ai_backend_client.py:344-349 | the queue is emptied |
| `EventOutbox.FinishedInCommitOrder` | ai-backend/app/call/session.py:2581-2629 | entries finish at most once, in commit order, with exactly one delivery task while any waits |
| `EventOutbox.SentInCommitOrder` | ai-backend/app/call/session.py:2609-2629 | what is sent is in commit order without repetition |
| `EventOutbox.RecoverableExactlyOnce` | ai-backend/app/call/session.py:2735-2758 | each finished user_final or failed event was sent or kept for recovery: exactly one of the two, once |
| `EventOutbox.DeliveredExactly` | ai-backend/app/call/session.py:2651-2747 | in every run a finished entry was discarded when its delivery began, if it was a speech event of a stopped turn or an over call then, and otherwise was offered to the channel and sent if and only if the channel took it |
| `EventOutbox.OtherEventsReachTheChannel` | ai-backend/app/call/session.py:2651-2747 | an event that is not about speech is always offered to the channel; untaken it is kept exactly if it is user_final or failed |
| `EventOutbox.KeptUntilDrained` | ai-backend/app/call/session.py:2735-2758 | what is kept stays until the next drain, which hands it out |
| `EventOutbox.ResolvedForGood` | ai-backend/app/call/session.py:2599-2607 | a reserved slot keeps the event it is resolved with, finished or not |
| `EventOutbox.GuardExactly` | ai-backend/app/call/session.py:4160-4189 | a turn is stopped from the moment its cancellation begins, cancelled once it ended or was marked; the call is over as last reported |
| `EventOutbox.ResolvedOutboxCanFinish` | ai-backend/app/call/session.py:2609-2649 | from every reachable session without an unresolved slot, at most two steps of the delivery task per entry finish everything in order, whatever the channel answers |
| `EventOutbox.ReservedSlotHoldsItsPlace` | ai-backend/app/call/session.py:2599-2607 | until a reserved slot is resolved nothing committed after it is finished |
| `EventOutbox.CancelledIsForGood` | ai-backend/app/call/session.py:4160-4189 | a turn in cancelling or cancelled never leaves their union |
| `EventOutbox.NoLateSpeech` | ai-backend/app/call/session.py:2651-2672 | after that, of its speech events only one whose delivery had passed the guard can still be sent |
| `EventOutbox.LateSpeechExactly` | ai-backend/app/call/session.py:2651-2733 | however the session goes on after the stop, a speech event not yet sent is sent if and only if a task had it past the guard and the first answer of the channel to that task is that it takes it |
| `EventOutbox.LateSpeechPossible` | ai-backend/app/call/session.py:2651-2733 | so some continuation sends it if and only if it was in delivery |
| `EventOutbox.SpeechCanBeSentAfterCancel` | ai-backend/app/call/session.py:2651-2672 | the run in which ai_done is sent after its turn was cancelled |
| `SessionOutbox.SessionOutbox.CommitEvent` | ai-backend/app/call/session.py:2581-2597 | appends in order and starts a task only when there is none |
| `SessionOutbox.SessionOutbox.ResolveEventCommit` | ai-backend/app/call/session.py:2599-2607 | fills an empty slot and leaves every other entry alone |
| `SessionOutbox.SessionOutbox.CompleteHead` | ai-backend/app/call/session.py:2618-2629 | the head leaves; the task ends with the outbox |
| `SessionOutbox.SessionOutbox.BeginDelivery` | ai-backend/app/call/session.py:2651-2672 | the guard: discard or go on to the sink |
| `SessionOutbox.SessionOutbox.EndDelivery` | ai-backend/app/call/session.py:2705-2747 | sent, kept for recovery, or neither |
| `SessionOutbox.SessionOutbox.DrainUndeliveredEvents` | ai-backend/app/call/session.py:2749-2758 | hands out what was kept, once |
| `SessionOutbox.SessionOutbox.BeginCancelTurn` | ai-backend/app/call/session.py:4160-4162 | the turn enters cancelling |
| `SessionOutbox.SessionOutbox.EndCancelTurn` | ai-backend/app/call/session.py:4186-4189 | the turn moves from cancelling to cancelled |
| `MicrophoneTurns.MicInvRun` | ai-backend/app/call/session.py:2379-2431 | the microphone invariants over every run, on top of the peer lifecycle |
| `MicrophoneTurns.EachFrameClaimedOnce` | ai-backend/app/call/session.py:2379-2431 | claimed and buffered frames together are in arrival order without repetition |
| `MicrophoneTurns.OneFinalizationAtATime` | ai-backend/app/call/session.py:2387-2390 | while a finalization runs it alone is admitted and every further claim joins it |
| `MicrophoneTurns.BufferedExactly` | ai-backend/app/call/session.py:2071-2077 | the buffer is what was appended since it was last cleared or claimed |
| `MicrophoneTurns.FinalizationHears` | ai-backend/app/call/session.py:2379-2431 | a running finalization hears exactly what was buffered at its claim, and runs until released |
| `MicrophoneTurns.ClaimIsTold` | ai-backend/app/call/session.py:2387-2431 | what a claim is told, from what came before it |
| `MicrophoneTurns.SwitchKeepsEarlierTurns` | ai-backend/app/call/session.py:2440-2475 | a turn that may answer when a switch starts still may during it; one claimed during it may not |
| `MicrophoneTurns.UndisturbedTurnIsPlaced` | ai-backend/app/call/session.py:2379-2532 | on a live call an undisturbed turn is heard in full, takes the next place and lets the next turn follow |
| `MicrophoneTurns.NothingAfterTerminalSlot` | ai-backend/app/call/session.py:2498-2532 | no transcript or failure takes a place after the terminal event's slot, and a turn takes at most one |
| `CallEvents.CallInvRun` | ai-backend/app/call/session.py:2498-2532 | microphone and outbox together, for every interleaving of turns, lifecycle, other events and delivery: each place of a turn or of the end holds its event, in order, and every transcript is at a place |
| `CallEvents.NoTranscriptAfterTheEnd` | ai-backend/app/call/session.py:4440-4440 | in every run each transcript in the outbox has a smaller sequence number than the terminal event |
| `CallEvents.PlacedTurnsComeOutFirst` | ai-backend/app/call/session.py:2498-2532 | when the terminal event is finished, every transcript or transcription failure with a place is finished too, sent or kept exactly once |
| `CallEvents.NothingIsHeardAfterTheEnd` | ai-backend/app/call/session.py:4440-4440 | once the terminal event is finished, no continuation finishes another transcript |
| `CallEvents.AnswerIsCommitted` | ai-backend/app/call/session.py:2498-2532 | a turn that may answer is committed in that step, as transcript or failure, behind everything committed before |
| `CallEvents.EndIsPublished` | ai-backend/app/call/session.py:4484-4526 | the first terminal event published fills the reserved place, and no other event does |
| `CallEvents.TerminalEventIsOffered` | ai-backend/app/call/session.py:4484-4526 | once the terminal event is finished it was offered to the channel, sent if and only if taken there, and kept if a failed call's event was not |
| `MicrophoneTurns.AnswersExactly` | ai-backend/app/call/session.py:2440-2475 | an event gets a place if and only if the call goes on, no reconnect began since the claim unless a backfill made it, and a running switch has noted it |
| `MicrophoneTurns.InterruptedTurnIsSilent` | ai-backend/app/call/session.py:2440-2475 | a live turn that a reconnect interrupted never gets a place, however the call goes on |
| `SessionMicrophone.SessionMicrophone.AppendTurnFrame` | ai-backend/app/call/session.py:2071-2077 | the frame joins the buffer |
| `SessionMicrophone.SessionMicrophone.ClaimSttFinalization` | ai-backend/app/call/session.py:2379-2431 | joins, refuses, or claims the whole buffer |
| `SessionMicrophone.SessionMicrophone.CommitSttEvent` | ai-backend/app/call/session.py:2498-2532 | orders the event against the terminal transition |
| `SessionMicrophone.SessionMicrophone.ReleaseSttAdmission` | ai-backend/app/call/session.py:2477-2492 | the admission and the running finalization end together |
| `AudioTrack.DebtIsBounded` | ai-backend/app/call/tracks.py:268-308 | recv split at its await: held audio never exceeds the credit by more than one frame, and pending misses at most one frame of what is held or in flight |
| `AudioTrack.SamplesAreConserved` | ai-backend/app/call/tracks.py:331-381 | offered = played + discarded + pending + not yet admitted, in every run |
| `AudioTrack.PlayedWasEmitted` | ai-backend/app/call/tracks.py:376-381 | in every run only what was handed out counts as played |
| `AudioTrack.AdmitsAllItCan` | ai-backend/app/call/tracks.py:340-374 | in every reachable state a pass of a live admission admits, in order, all that the credit allows, and is over if and only if nothing is left |
| `AudioTrack.EndedExactly` | ai-backend/app/call/tracks.py:237-256 | the track has ended if and only if it was stopped for good |
| `AudioTrack.NoOrderViolations` | ai-backend/app/call/tracks.py:268-288 | the order violation count stays 0 |
| `AudioTrack.EmittedIsPrefix` | ai-backend/app/call/tracks.py:331-374 | the unpadded frames of an epoch are a prefix of what was admitted and of what was offered in it |
| `AudioTrack.OneStaleFrame` | ai-backend/app/call/tracks.py:237-256 | after a stop at most the first frame handed out is from before it, and only the one already cut |
| `AudioTrack.StaleFrameExactly` | ai-backend/app/call/tracks.py:288-302 | over every run before and after a stop: a frame from before it is handed out after it if and only if one was cut and not released, and a release follows; it is then the first one out |
| `AudioTrack.FillKeeps` | ai-backend/app/call/tracks.py:268-286 | filling the buffer keeps what is held and its order, and yields a full frame if there is one |
| `AudioTrack.CutTakes` | ai-backend/app/call/tracks.py:288-308 | a cut takes the oldest samples, a full frame if there is one |
| `AudioTrack.AtomicPendingIsHeld` | ai-backend/app/call/tracks.py:376-381 | recv in one step: pending is exactly what is queued and buffered |
| `AudioTrack.AtomicRecvIsFifo` | ai-backend/app/call/tracks.py:268-302 | recv in one step: the track is a flat queue, each frame its oldest samples |
| `AudioTrack.AtomicPlayedIsEmitted` | ai-backend/app/call/tracks.py:376-381 | recv in one step: the samples counted as played are exactly those handed out, over all epochs |
| `AudioTrack.AdmissionCanComplete` | ai-backend/app/call/tracks.py:340-374 | recv in one step: an admission is never stuck, frames alone let every offered sample in |
| `AudioTrack.AtomicStopDropsEverything` | ai-backend/app/call/tracks.py:237-256 | recv in one step: until the next stop, what is handed out after a stop is a prefix of what was offered after it, and nothing once ended |
| `OutputTrack.QueuedAudioOutputTrack.FillBuffer` | ai-backend/app/call/tracks.py:268-286 | the loop that moves chunks and checks their sequence |
| `OutputTrack.QueuedAudioOutputTrack.CutNextFrame` | ai-backend/app/call/tracks.py:288-322 | the cut, padded with silence to a whole frame |
| `OutputTrack.QueuedAudioOutputTrack.ReleasePendingSamples` | ai-backend/app/call/tracks.py:376-381 | credit returns as far as there is any; the frame goes out |
| `OutputTrack.QueuedAudioOutputTrack.BeginAdmission` | ai-backend/app/call/tracks.py:331-338 | an admission remembers its epoch |
| `OutputTrack.QueuedAudioOutputTrack.AdmitSamples` | ai-backend/app/call/tracks.py:340-374 | gives up, waits, or admits |
| `OutputTrack.QueuedAudioOutputTrack.AdmitChunk` | ai-backend/app/call/tracks.py:358-374 | admits exactly what the credit allows |
| `OutputTrack.QueuedAudioOutputTrack.StopCurrent` | ai-backend/app/call/tracks.py:237-256 | discards queue, buffer and credit; counts the entries dropped |
| `Pacing.RealtimePacer.PaceRealtime` | ai-backend/app/call/tracks.py:408-422 | the pacing step and the time the frame goes out |
| `Pacing.NeverEarly` | ai-backend/app/call/tracks.py:408-422 | for every clock trace frame k goes out no earlier than start + k frame durations |
| `Pacing.NextDeadlineIsNear` | ai-backend/app/call/tracks.py:408-422 | after each frame the next deadline is between now and now + one frame duration |
| `Pacing.ScheduleIsKept` | ai-backend/app/call/tracks.py:408-422 | while no frame is late by more than its duration, the schedule does not drift, however the clock jitters |
| `QwenStream.IterGenerationEvents` | ai-backend/app/models/tts_qwen3_worker.py:475-589 | the producer loop yields the specified stream |
| `QwenStream.StreamConforms` | ai-backend/app/models/tts_qwen3_worker.py:475-589 | for every item sequence and cancel instant: one terminal, last, counting the chunks; indices from 0; steps increasing; four per chunk below the token limit; audio within the hard limit |
| `QwenStream.StreamExactly` | ai-backend/app/models/tts_qwen3_worker.py:475-589 | the stream from its inputs alone: which items become chunks, with what content; done, cancelled, ceiling and failed each with its exact condition |
| `QwenStream.CancelStopsChunks` | ai-backend/app/models/tts_qwen3_worker.py:475-589 | k chunks mean that the first 2k+1 cancellation checks saw none, and done means that none did |
| `QwenStream.QwenStreamEventValidator.AcceptEvent` | ai-backend/app/models/tts_qwen3_protocol.py:319-343 | accepts exactly the events the validator state allows and changes nothing otherwise |
| `QwenStream.ValidatorExactly` | ai-backend/app/models/tts_qwen3_protocol.py:319-343 | an event sequence is accepted if and only if it has consecutive indices, ordered times and steps, stays under the ceiling, and any terminal is last and counts the chunks |
| `QwenStream.AcceptedExactly` | ai-backend/app/models/tts_qwen3_worker.py:475-589 | the validator takes a worker stream if and only if its stated durations add up to at most the ceiling |
| `QwenStream.ExactDurationsAreAccepted` | ai-backend/app/models/tts_qwen3_protocol.py:319-343 | with exact durations every stream is accepted |
| `QwenStream.RoundingDrift` | ai-backend/app/models/tts_qwen3_worker.py:550-550 | rounding k durations moves their sum by at most k thirds of a microsecond |
| `QwenStream.MarginIsEnough` | ai-backend/app/models/tts_qwen3_protocol.py:319-343 | with rounded durations a third of a microsecond per chunk below the limit is enough |
| `QwenStream.RoundingCanRefuse` | ai-backend/app/models/tts_qwen3_protocol.py:327-329 | three chunks of exactly 100 ms whose rounded durations are refused under a 100 ms ceiling |
| `Segmenter.FindHardExactly` | web-ui/server/app/domain/call_tts_segments.py:63-69 | the scan finds the first sentence or line end with enough words, up to further newlines, if and only if there is one |
| `Segmenter.BoundaryExactly` | web-ui/server/app/domain/call_tts_segments.py:56-82 | a boundary exists if and only if a useful hard end exists or the word maximum is reached; a hard end within the limits wins |
| `Segmenter.BoundaryInLimits` | web-ui/server/app/domain/call_tts_segments.py:56-82 | a boundary cuts at a word break with min..max words before it; without one fewer than max words are buffered |
| `Segmenter.WordLimitCut` | web-ui/server/app/domain/call_tts_segments.py:71-82 | with the word maximum reached and no useful hard end, the cut is at the last useful soft end, else exactly behind the last word allowed |
| `Segmenter.RestHasNoBoundary` | web-ui/server/app/domain/call_tts_segments.py:31-46 | what is left after feeding has no boundary and is not blank |
| `Segmenter.FeedKeepsVisible` | web-ui/server/app/domain/call_tts_segments.py:31-46 | segments and rest carry exactly the visible characters, in order |
| `Segmenter.FeedInLimits` | web-ui/server/app/domain/call_tts_segments.py:31-46 | every fed segment has min..max words and is stripped; the rest has fewer than max |
| `Segmenter.CallTtsSegmenter.HardBoundary` | web-ui/server/app/domain/call_tts_segments.py:63-69 | the loop over hard boundaries |
| `Segmenter.CallTtsSegmenter.SoftBoundary` | web-ui/server/app/domain/call_tts_segments.py:74-82 | the loop over soft boundaries: the last one before the limit with enough words |
| `Segmenter.CallTtsSegmenter.FindBoundary` | web-ui/server/app/domain/call_tts_segments.py:56-82 | the next boundary; blank text is dropped |
| `Segmenter.CallTtsSegmenter.Feed` | web-ui/server/app/domain/call_tts_segments.py:31-46 | terminates, hands out the segments and keeps the rest; refused after finish |
| `Segmenter.CallTtsSegmenter.Finish` | web-ui/server/app/domain/call_tts_segments.py:48-54 | the stripped tail, once |
| `TokenLoop.SpokenIsRecorded` | web-ui/server/app/api/calls.py:637-687 | for every token stream the segments and the tail carry the visible characters of the recorded text, which is the whole stream |
| `TokenLoop.ConsumeTokens` | web-ui/server/app/api/calls.py:637-769 | the loop with its segmenter does that |
| `EndToEnd.RecordedIsSpoken` | web-ui/server/app/api/calls.py:637-872 | token loop, client and ledger together: after a normal end the committed texts, in ordinal order, carry the visible characters of the recorded text |
| `GenerationLimits.LimitsInRange` | ai-backend/app/models/tts_qwen3.py:736-751 | 1 to 60 words: tokens a multiple of 4 in 4..384, audio in 6..32 s, twelve tokens per second of the unrounded limit |
| `GenerationLimits.LimitsExactly` | ai-backend/app/models/tts_qwen3.py:736-751 | the limits by word count: floor, slope and cap of the audio limit, fewest tokens in fours, milliseconds to the nearest |
| `GenerationLimits.LimitsGrow` | ai-backend/app/models/tts_qwen3.py:736-751 | both limits are monotone in the word count |
| `GenerationLimits.AcceptedExactly` | ai-backend/app/models/tts_qwen3_protocol.py:104-105 | limits, command and text rule together accept a text if and only if it has 1 to 60 words and at most 8000 characters; the computed limits never break a numeric rule |
| `GenerationLimits.DefaultSegmentsAreAccepted` | web-ui/server/app/domain/call_tts_segments.py:21-29 | every segment and non-empty tail of a default segmenter is accepted |
| `GenerationLimits.LongWordIsRefused` | ai-backend/app/models/tts_qwen3_protocol.py:103-103 | one word of 8001 letters gets limits and is refused by the command |
| `VadWindow.VadAnalysisWindow.AppendSamples` | ai-backend/app/call/session.py:5215-5232 | count and contents stay exact; the trim loop ends |
| `VadWindow.VadAnalysisWindow.Trim` | ai-backend/app/call/session.py:5224-5232 | exactly the last maxSamples samples are left |
| `VadWindow.VadAnalysisWindow.AnalysisSamples` | ai-backend/app/call/session.py:5234-5237 | the concatenation is the window |
| `VadWindow.VadAnalysisWindow.Reset` | ai-backend/app/call/session.py:5239-5243 | the window is empty again |
| `VadWindow.WindowIsLast` | ai-backend/app/call/session.py:5215-5232 | with one maximum the window is the last min(n, max) samples since the reset |
| `VadWindow.WindowIsSuffix` | ai-backend/app/call/session.py:5215-5232 | whatever the maxima, it is a suffix of everything appended, within the last maximum |

## Left out

- Routes, request models, HTTP, WebRTC and subprocess plumbing, the database dialect and its identity map: the turns
  table is a map, and every lock-guarded transaction is one step.
- `create_session` and the unguarded `complete_transport_reconnect` it reaches (session.py:4981-4983, 5829-5831):
  they can leave the terminal phase; every other entry point of the lifecycle is modelled.
- Commit and reject requests are modelled as suspended requests on values, not as methods: a Dafny method cannot stop
  at an await and let others run. The lock-guarded sections they call are methods.
- The session's fields are grouped into a few record-valued fields, and ledger segments, outbox entries and
  admissions are values in sequences and maps, so aliasing of those objects is not captured.
- Asynchronous waiting itself (waiters of a segment attempt, of a speech admission, of the outbox) is left out: a
  waiting caller claims again, which is a further step of the model. Fairness is not modelled.
- The persistence lock of call turns: the model allows more interleavings than it does.
- Turn-owner tasks: whether the registered task is done is an input of the stale check.
- Messages recorded without a turn (`record_event`, `record_user_speech`, `record_ai_speech`).
- The delays and the cancellation of `_close_peer_until_resolved`; its attempts and its record are modelled.
- A switch task that ends by `CancelledError` before it has finished or failed its switch.
- A `recv` cancelled between the cut and the release: the frame is gone and its credit stays taken.
- Data channels, outbound tracks and prompt leases of a switch appear only as cleanup steps that can fail.
- `CancelledError` inside a terminal cleanup attempt, which propagates and ends the task. Whether the terminal event
  gets published (session.py:4467-4477) is an input of the cleanup.
- The sentinel that `stop` puts into the track's queue, the metric counters and `reset_playout_metrics`.
- SHA-256 digests are numbers and taken to be injective; a client's segment identifiers are taken to differ from
  the generated `ordinal:` and `legacy:` ones.
- `complete_speech_turn` and `speak_text` are the claim, commit, release and cancel steps they make; synthesis and
  playback between them are left out.
- Floating point: durations and limits are exact, rounding is modelled where the source rounds on purpose. The hard
  audio limit of a command is given in microseconds; clock readings arrive already rounded, in order.
- Audio and text are opaque samples and characters: no signal processing, no Unicode normalisation.
- Voice preparation, model leases, settings, characters, cards and voices: mostly record mapping.
