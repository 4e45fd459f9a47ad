# Gateway protocols, verified

A Dafny model of the stateful protocols and of the replay, matching and translation
algorithms inside the Helm gateway, its admin bundle and its scripts, with proofs of what
they are for. Where the source changes state in place the model is a class whose methods
are tied, field by field, to a function on values; the properties are then proved about
every run of that function. An asynchronous function is cut at its awaits: each stretch
between two awaits is one atomic step, and timers, sockets, stores, background runners and stop
signals are events that may come in any order.

`dafny verify dfyconfig.toml` checks everything.

## Modules

| file | what it models |
|---|---|
| `CodexConnection.dfy` | the receive queue of the Codex upstream socket: buffered frames, waiting readers, leases, keepalive, two kinds of shutdown |
| `ToolPairing.dfy` | pairing tool calls with results by per-id pointers, and the clean-up pass |
| `SessionDelta.dfy`, `SessionHistory.dfy` | replaying a session revision from its parent chain, and the round trip with what was captured |
| `ResponsesConnection.dfy`, `UpgradeCapacity.dfy` | one connection of the Responses bridge, and the number of sockets it lets in |
| `SpeechSocket.dfy` | one speech socket from upgrade to end |
| `SupervisorGuards.dfy`, `Supervisor.dfy` | the reprice supervisor: its windows, its guards, its main loop |
| `QuotaWorker.dfy` | the latest-wins worker that persists quota snapshots |
| `ResponsesRegistry.dfy`, `RecordFreshness.dfy` | the pending overlay over the durable responses store, and exactly when a reader can be told of an older record |
| `RealtimeRegistry.dfy` | the realtime call registry with time to live and capacity |
| `ClientConnect.dfy`, `TextSearch.dfy` | the managed block of a Codex client config: apply, rollback, interruption |
| `SseWire.dfy`, `ChatStream.dfy`, `ChatSender.dfy`, `StreamSender.dfy` | cutting a captured event stream, assembling a chat stream, and what the servers sent |
| `BlockedModels.dfy` | compiling blocked-model patterns to regular expressions |
| `DeepEqual.dfy` | structural equality of parsed JSON |
| `JsonValues.dfy`, `Texts.dfy` | parsed JSON and `trim` |

## What was found

Seven expected properties do not hold of the code as it stands. For each there are the
inputs on which it fails and the exact condition under which it does hold.

- Capturing a full request while the session's last request was a continuation can store a
  revision that restores to something else, because the head is compared with the
  continuation's own events and not with its conversation (`ResumedIsNotRestored`; exactly
  when: `CapturedHistoryRestores`).
- A full request captured after a partial continuation is stored whole and not marked partial,
  and cannot be restored, because the walk to the root fails at the partial revision
  (`FullRequestAfterPartialIsLost`; exactly when: `PartialIsLost` and `EveryVersionRestores`).
- A quota snapshot is lost, with no step failing, when the background runner refuses the worker
  (`RefusedSnapshotIsLost`; exactly when: `IdleAccountIsUpToDate`).
- Two overlapping puts that pass the same record object, around a third call for that id
  with another record, can serve an owner that older record (`SharedObjectServesOldRecord`;
  exactly when, for the calls a client makes: `FreshExactlyWhenHarmless`; for one step:
  `FinishedPutGoesStaleIff`). The gateway's own calls in `videos.ts`,
  `native-media-tasks.ts` and `responses.ts` build a new record for each put.
- An exact blocked-model entry with a long s (U+017F) blocks no ASCII name although the same
  entry with a wildcard does (`LongSIsReadTwoWays`; exactly when: `ShortcutIsExactIff`).
- A chat chunk that has a `tool_calls` array, even an empty one, or reasoning beside its
  content loses that content in the assembly (`EmptyToolCallsHideContent`; exactly when:
  `ContentIsCompleteIff`).
- A Codex connection whose model contains the begin marker is applied but can never be
  rolled back (`MarkerLaneIsStuck`; exactly when: `ApplyThenRollbackIff`).

Two more things to know. An apply that stopped after the receipt and before the config
needs a rollback before it can be tried again (`RetryIff`, for every stopping point). And
clients and preflights of the Responses bridge can add up to more than the limit for a
moment (`CountersOverlap`); the number of distinct upgrades never does.

## Model

| member | source | states |
|---|---|---|
| CodexConnection.WsCodexConnection.Terminate | apps/gateway/src/codex-responses-websocket.ts:85-99 | first end wins; discarding releases what is buffered, a transport end keeps it |
| CodexConnection.WsCodexConnection.EnqueueMessage | apps/gateway/src/codex-responses-websocket.ts:148-182 | a frame goes to the longest waiting reader, else into the buffer if it fits, else the connection fails with its lease released |
| CodexConnection.WsCodexConnection.ReceiveWithWork | apps/gateway/src/codex-responses-websocket.ts:207-218 | oldest frame, else the end, else wait |
| CodexConnection.WsCodexConnection.FinishReceive | apps/gateway/src/codex-responses-websocket.ts:197-205 | a text read gives its lease back once, after its message arrived |
| CodexConnection.WsCodexConnection.OnInterval | apps/gateway/src/codex-responses-websocket.ts:108-125 | the keepalive interval arms the timeout or ends the connection |
| CodexConnection.WsCodexConnection.HandlePong | apps/gateway/src/codex-responses-websocket.ts:127-132 | a pong only re-arms the interval while a timeout is running |
| CodexConnection.WsCodexConnection.Close | apps/gateway/src/codex-responses-websocket.ts:224-226 | explicit close ends the connection and discards what is unread |
| CodexConnection.RunKeepsInv | apps/gateway/src/codex-responses-websocket.ts:53-182 | in every run: readers and frames never both wait, the byte count is the sum of buffered frames and within the limit, no reader and no timer after the end |
| CodexConnection.RefinesFifo | apps/gateway/src/codex-responses-websocket.ts:148-218 | in every run the readers are told exactly what a plain queue would tell them |
| CodexConnection.AcceptedIsWhatArrived | apps/gateway/src/codex-responses-websocket.ts:148-182 | the accepted frames are the messages in arrival order, all of them while the connection is open |
| CodexConnection.TerminalIsFinal | apps/gateway/src/codex-responses-websocket.ts:85-99 | once set, the end never changes and no frame or lease is taken any more |
| CodexConnection.OnlyDisposalDiscards | apps/gateway/src/codex-responses-websocket.ts:85-91 | frames are thrown away only by explicit close or a capacity failure |
| CodexConnection.EndComesAfterEveryFrame | apps/gateway/src/codex-responses-websocket.ts:86-87 | without those, nobody sees the end before every accepted frame is delivered |
| CodexConnection.ReadersAreToldWhatEndedIt | apps/gateway/src/codex-responses-websocket.ts:74-218 | the event that ends an open connection decides what every reader without a frame is told in any continuation: a transport error its message, a missed pong, a failed ping, undecodable bytes or a lack of room its own failure, a transport close or disposal the end of the stream; and which events end it |
| CodexConnection.EveryLeaseHasOneOwner | apps/gateway/src/codex-responses-websocket.ts:148-205 | each lease is at all times exactly one of released once, buffered, handed to one reader |
| CodexConnection.TextReadGivesItsLeaseBack | apps/gateway/src/codex-responses-websocket.ts:197-205 | whatever happens between the call and its continuation, a text read that got a message releases that message's lease |
| CodexConnection.ReadersKeepTheirLeases | apps/gateway/src/codex-responses-websocket.ts:197-218 | no other event takes a lease from its reader, and the connection never releases one that was handed out as work |
| CodexConnection.KeepAliveFollowsThePings | apps/gateway/src/codex-responses-websocket.ts:101-132 | told from the events alone: which timer runs, and that a firing timeout ends the connection exactly when a ping is unanswered |
| CodexConnection.CloseDetailsAreKept | apps/gateway/src/codex-responses-websocket.ts:76-79 | the code and reason kept are those of the last close of the transport, also after the end |
| CodexConnection.DisposalReleasesUnread | apps/gateway/src/codex-responses-websocket.ts:224-226 | after a close every lease no reader holds has been released |
| ToolPairing.PairToolExchanges | apps/admin/src/lib/conversation.ts:544-619 | the pointer algorithm gives what the simple rule gives, for every document |
| ToolPairing.IndexResults | apps/admin/src/lib/conversation.ts:555-564 | for each id, its results in document order |
| ToolPairing.ClaimResults | apps/admin/src/lib/conversation.ts:573-595 | every call claims the first later same-id result that no earlier call took |
| ToolPairing.PointerFindsFirstFree | apps/admin/src/lib/conversation.ts:583-588 | the pointer finds what a scan from the start would find |
| ToolPairing.PairingIsValid | apps/admin/src/lib/conversation.ts:545-553 | the pairing is one to one, same non-empty id, result after call |
| ToolPairing.PairingIsMaximum | apps/admin/src/lib/conversation.ts:572-595 | no such pairing is larger |
| ToolPairing.FreeComesTooLate | apps/admin/src/lib/conversation.ts:572-595 | a result left over that could answer a call: the call has an earlier one |
| ToolPairing.PairingKeepsTheRest | apps/admin/src/lib/conversation.ts:597-618 | turns keep their place, and in each turn a call becomes one exchange where it stood, a paired result is gone, and everything else, leftover results included, stays in its place |
| ToolPairing.PairingKeepsEveryOutput | apps/admin/src/lib/conversation.ts:541-543 | the bag of outputs a reader sees is the same before and after |
| ToolPairing.ExchangeCarriesItsResult | apps/admin/src/lib/conversation.ts:601-610 | the exchange of a call carries the output of the result paired with it |
| ToolPairing.CleanTurns | apps/admin/src/lib/conversation.ts:640-648 | empty parts go, then turns left with nothing |
| ToolPairing.CleaningKeepsEveryOutput | apps/admin/src/lib/conversation.ts:621-648 | cleaning drops no tool output |
| ToolPairing.CleaningKeepsEverySignal | apps/admin/src/lib/conversation.ts:621-648 | every part with something to show, down to one character that is no white space, stays, in its order; what goes has none |
| ToolPairing.TranscriptKeepsEveryOutput | apps/admin/src/lib/conversation.ts:544-648 | neither do pairing and cleaning together |
| SessionDelta.RestoreSessionRevision | packages/shared/src/session-delta.ts:62-111 | terminates on every store, cyclic or not, and gives the recursively defined result or error |
| SessionDelta.WalkChain | packages/shared/src/session-delta.ts:66-79 | the parent walk with cycle detection gives the chain, or its error |
| SessionDelta.ReplayChain | packages/shared/src/session-delta.ts:81-104 | replaying the chain root first, cutting and appending in place |
| SessionDelta.TranscriptIsReplay | packages/shared/src/session-delta.ts:60-104 | walking, reversing and replaying equals the recursion over parents |
| SessionDelta.WalkErrors | packages/shared/src/session-delta.ts:72-79 | a cycle is reported exactly when the walk revisits an id, an unknown revision exactly when it leaves the store |
| SessionDelta.BranchesAreIsolated | packages/shared/src/session-delta.ts:60-61 | storing a revision off the walk never changes a result |
| SessionHistory.EveryVersionRestores | packages/shared/src/session-delta.ts:81-106 | in every branch the versions that restore to their conversation are exactly those with nothing partial on the way to the root, iff each of these kept only a common prefix with its parent |
| SessionHistory.PartialIsLost | packages/shared/src/session-delta.ts:88-95 | a partial version and everything captured on top of it fails to restore |
| SessionHistory.RestoredRequest | packages/shared/src/session-delta.ts:105-110 | the restored request is the captured one with the whole conversation and without the previous response id |
| SessionHistory.ContinuationTakesTheOutput | packages/shared/src/session-delta.ts:43-110 | a continuation restores to its parent's events, then the items of the parent's stored output, then its own events |
| SessionHistory.ContinuationNeedsTheOutput | packages/shared/src/session-delta.ts:87-95 | and fails as unavailable when the parent has no such output |
| SessionHistory.CapturedKeepsCommonPrefix | packages/core/src/store/session-delta.ts:55-86 | what the capture leaves out is a common prefix unless a full request begins with the own events of a continuation whose conversation does not |
| SessionHistory.CapturedHistoryRestores | apps/gateway/src/routes/payload-capture.ts:443-492 | capturing and restoring are inverse on every complete version exactly when there is no such request, partial captures included |
| SessionHistory.FullRequestAfterPartialIsLost | apps/gateway/src/routes/payload-capture.ts:460-470 | a full request after a partial continuation, stored whole, that does not restore |
| SessionHistory.ResumedIsNotRestored | apps/gateway/src/routes/payload-capture.ts:449-470 | a history of three requests that is captured and does not restore |
| ResponsesConnection.ResponsesConnection.OnMessage | apps/gateway/src/responses-websocket.ts:761-795 | ignored when aborted or closed, fatal during a turn, refused without leases, else a turn with one lease of each kind |
| ResponsesConnection.ResponsesConnection.FinishTurn | apps/gateway/src/responses-websocket.ts:817-825 | both leases are released, the turn is over, the idle timer is armed if the connection lives |
| ResponsesConnection.ResponsesConnection.OnForwardThrew | apps/gateway/src/responses-websocket.ts:813-816 | a failed turn ends at once on a dead connection and reports its error on a live one |
| ResponsesConnection.ResponsesConnection.OnIdleTimeout | apps/gateway/src/responses-websocket.ts:747-757 | an idle connection is aborted and closed with code 1001 |
| ResponsesConnection.RunKeepsInv | apps/gateway/src/responses-websocket.ts:723-828 | in every run: one turn at most, its leases, the idle timer armed only for an open idle connection, the upstream session |
| ResponsesConnection.OneTurnHoldsItsLeases | apps/gateway/src/responses-websocket.ts:773-825 | at most one body runs and holds one unreleased lease of each kind; all others are released exactly once |
| ResponsesConnection.AbortIsFinal | apps/gateway/src/responses-websocket.ts:734-762 | after an abort closeSession has run for the last accepted turn and nothing is accepted any more |
| ResponsesConnection.SessionClosesOnce | apps/gateway/src/responses-websocket.ts:734-740 | closeSession runs at most once per session generation |
| ResponsesConnection.FailedTurnClosesItsSession | apps/gateway/src/responses-websocket.ts:799-817 | after a turn that failed or invalidated its session, closeSession has run for its generation |
| ResponsesConnection.MessageBeginsATurnIff | apps/gateway/src/responses-websocket.ts:761-795 | an open idle connection takes a message exactly when both admissions grant a lease, and is otherwise left as it was with every lease back |
| ResponsesConnection.TurnEndsByItsOwnSteps | apps/gateway/src/responses-websocket.ts:797-826 | a turn is over after at most two steps of its own body, whatever happens to the connection, and by nothing else |
| ResponsesConnection.ErrorsAreReportedToTheLiving | apps/gateway/src/responses-websocket.ts:813-816 | the error of a failed turn is sent exactly when the connection is open and not aborted; else the turn ends with its leases back |
| ResponsesConnection.OnlyIdleConnectionsTimeOut | apps/gateway/src/responses-websocket.ts:747-757 | an idle timeout ends an open connection without a turn, and no other |
| ResponsesConnection.ClosedSocketsTakeNoTurns | apps/gateway/src/responses-websocket.ts:741-767 | once closing, failed or aborted a connection takes no turn; at most one close code is sent, and it ends the connection |
| ResponsesConnection.SecondMessageEndsTheConnection | apps/gateway/src/responses-websocket.ts:763-767 | code 1008, the turn aborted and still holding its leases |
| UpgradeCapacity.Bridge.OnUpgrade | apps/gateway/src/responses-websocket.ts:830-854 | refused when clients and preflights together reach the limit |
| UpgradeCapacity.NeverOverCapacity | apps/gateway/src/responses-websocket.ts:830-903 | distinct upgrades and connections never exceed the limit |
| UpgradeCapacity.CheckedAreLetIn | apps/gateway/src/responses-websocket.ts:830-903 | told from the events alone: a preflight is running exactly when its upgrade found room before any close and it has not settled |
| UpgradeCapacity.ClientsHaveConnected | apps/gateway/src/responses-websocket.ts:864-903 | a socket is open exactly when the first handshake of its own running preflight succeeded before any close and it has not gone since |
| SpeechSocket.SpeechHandler.DoEnd | apps/gateway/src/audio-tts-websocket.ts:151-185 | the first end takes the socket out of the active set, closes the session and begins accounting |
| SpeechSocket.SpeechHandler.OnAccounting | apps/gateway/src/audio-tts-websocket.ts:167-184 | a failed settlement or record still releases the lease |
| SpeechSocket.SpeechHandler.OnGate | apps/gateway/src/routes/audio-speech.ts:134-168 | a lease granted to an aborted session is given back at once |
| SpeechSocket.SpeechHandler.OnLeaseReturned | apps/gateway/src/audio-tts-websocket.ts:201-205 | so is one that arrives after the end |
| SpeechSocket.SpeechHandler.OnSessionOpened | apps/gateway/src/audio-tts-websocket.ts:255-262 | and a session opened after the end is closed |
| SpeechSocket.RunKeepsInv | apps/gateway/src/audio-tts-websocket.ts:133-356 | in every interleaving: ended iff aborted iff out of the active set; variables are set in the order of the awaits; a granted lease is held, being handed over, or released once; a session is closed once it and the end both exist; the budget is settled once iff due |
| SpeechSocket.EndedSocketHoldsNothing | apps/gateway/src/audio-tts-websocket.ts:151-185 | once ended: not active, session closed exactly once, budget settled once iff a model was selected and there is a budget, lease released exactly once after accounting |
| SpeechSocket.EndedSessionIsRecorded | apps/gateway/src/audio-tts-websocket.ts:167-184 | without a failing step, a finished session with a selected model is recorded exactly once |
| SpeechSocket.FirstEndDecides | apps/gateway/src/audio-tts-websocket.ts:151-236 | the first end decides the status that is settled and recorded |
| SpeechSocket.EndedSocketComesToRest | apps/gateway/src/audio-tts-websocket.ts:151-356 | after an end the body returns within three of its awaits and the accounting within two, whatever comes between; then everything got is given back, once |
| SpeechSocket.SessionsAreOffered | apps/gateway/src/audio-tts-websocket.ts:236-355 | an upstream session is opened only for a model that offers them and takes commands only once it is there; errors go only to an open client |
| SpeechSocket.CallbacksEndTheSocket | apps/gateway/src/audio-tts-websocket.ts:186-305 | an abort always ends a socket, the client exactly once it is upgraded, the upstream session exactly once it is there |
| SpeechSocket.NothingIsReleasedEarly | apps/gateway/src/audio-tts-websocket.ts:151-206 | no second release and none before the end; a returned body has ended the socket |
| SpeechSocket.LateArrivalsAreReturned | apps/gateway/src/audio-tts-websocket.ts:201-262 | what arrives after the end is given back by the same step |
| SupervisorGuards.BuildUtcWindows | scripts/ops/historical-reprice-supervisor.ts:198-220 | windows that tile the range, or exactly which error |
| SupervisorGuards.WindowsPartitionTheRange | scripts/ops/historical-reprice-supervisor.ts:198-220 | every instant of the range is in exactly one window, no other instant in any |
| SupervisorGuards.EvaluatePreflight | scripts/ops/historical-reprice-supervisor.ts:222-260 | safe iff there are three samples and in each load, CPU, memory shares and WAL are below, memory and disk above the limits, health is 200, the restart count is that of the first, and there was no OOM, fault or busy database; the reasons name exactly the failed checks |
| SupervisorGuards.EvaluateRuntimeSafety | scripts/ops/historical-reprice-supervisor.ts:273-306 | stops iff a runtime limit is crossed or a fact is wrong, two busy samples in a row included |
| SupervisorGuards.NoWorseIsSafe | scripts/ops/historical-reprice-supervisor.ts:222-306 | samples no worse than safe ones are safe, and no worse than ones that do not stop a stage do not stop it |
| SupervisorGuards.PreflightIsStricter | scripts/ops/historical-reprice-supervisor.ts:53-66 | for limits that lie inside each other, as the defaults do, a sample that passes the preflight does not stop a stage |
| Supervisor.Supervisor.Run | scripts/ops/historical-reprice-supervisor.ts:756-970 | in every run each batch rests on three safe samples in a row since the last start, stop, cooldown or error, follows a non-stopping sample with the same restart count at once, and is within the stage limit; a run goes on until it is stopped, killed or done or an uncaught operation throws; and on a calm host n batches are started within 7 + 7n operations, up to the stage limit |
| Supervisor.Supervisor.RunPreflight | scripts/ops/historical-reprice-supervisor.ts:820-847 | leaves with three safe samples in a row, or with the reason it could not; on a calm host after three samples |
| Supervisor.Supervisor.StartBatch | scripts/ops/historical-reprice-supervisor.ts:889-962 | one batch per safe sample; cooldown ends the stage; on a calm host the batch is started and the round finished |
| Supervisor.BackedAt | scripts/ops/historical-reprice-supervisor.ts:867-903 | every batch of a backed trace has its evidence before it |
| QuotaWorker.QuotaCapture.CaptureCodexQuota | apps/gateway/src/server.ts:3093-3149 | the newest snapshot replaces the waiting one; a worker is started unless one runs |
| QuotaWorker.QuotaCapture.ResumeWorker | apps/gateway/src/server.ts:3113-3141 | the worker's loop, step by step, failing steps included |
| QuotaWorker.RunKeepsInv | apps/gateway/src/server.ts:3085-3087 | at most one worker per account, and what waits is the newest snapshot |
| QuotaWorker.PersistsInOrder | apps/gateway/src/server.ts:3115-3134 | the store sees a subsequence of what arrived, in order |
| QuotaWorker.IdleAccountIsUpToDate | apps/gateway/src/server.ts:3113-3149 | without failures an idle account has nothing waiting, and its newest snapshot is stored exactly when it was not refused |
| QuotaWorker.RefusedSnapshotIsLost | apps/gateway/src/server.ts:3144-3148 | a refused snapshot is lost without any failure |
| QuotaWorker.StrandedIsNewest | apps/gateway/src/server.ts:3135-3140 | a failing step strands only the newest snapshot, until the next observation |
| QuotaWorker.WorkerCatchesUp | apps/gateway/src/server.ts:3115-3134 | four settled steps store the newest snapshot and end the worker |
| ResponsesRegistry.Registry.Put | apps/gateway/src/responses-registry.ts:119-122 | a put is visible from its call on |
| ResponsesRegistry.Registry.FinishPut | apps/gateway/src/responses-registry.ts:123-125 | it takes its own overlay away and no other |
| ResponsesRegistry.Registry.Get | apps/gateway/src/responses-registry.ts:135-154 | answered at once from the overlay if there is one, with its record exactly for its account and key while unexpired and not deleted; else asked of the store |
| ResponsesRegistry.PrunesAreApart | apps/gateway/src/responses-registry.ts:107-116 | over any number of calls and whatever the clock does, prunes are at least five minutes apart, also from the start, and none that is due is skipped |
| ResponsesRegistry.RunKeepsInv | apps/gateway/src/responses-registry.ts:103-154 | in a sound run the overlay holds the newest put until the store has reached it, waiting writes are newer than the row, and no open read can find an older record |
| ResponsesRegistry.DistinctIsSound | apps/gateway/src/responses-registry.ts:119-126 | every run whose puts of an id pass distinct record objects is sound |
| RecordFreshness.FinishedPutGoesStaleIff | apps/gateway/src/responses-registry.ts:123-125 | in any reachable slot the end of a put makes some read tell an older, different record exactly when it takes the overlay of the newest put, unapplied, while the row is not deleted and has another record |
| ResponsesRegistry.ReadIsNeverStale | apps/gateway/src/responses-registry.ts:119-154 | with distinct record objects, in any interleaving, a read that starts after a put began never gets an older record, and only a live one of its owner |
| ResponsesRegistry.ToldIsEntitled | apps/gateway/src/responses-registry.ts:135-154 | in any run a reader is told only of a record with its account and key, unexpired and not deleted |
| ResponsesRegistry.EntitledIsTold | apps/gateway/src/responses-registry.ts:135-154 | a reader so entitled is told of the overlay, or of the row when there is none |
| ResponsesRegistry.PutInFlightIsSeen | apps/gateway/src/responses-registry.ts:119-142 | while a put is the last one begun and none has ended, readers entitled to its record are told of it at once and others of nothing |
| ResponsesRegistry.OverlayIsInFlight | apps/gateway/src/responses-registry.ts:118-126 | in any run the overlay is that of a put that has not returned; none is left behind |
| RecordFreshness.RunKeepsBase | apps/gateway/src/responses-registry.ts:118-154 | in every run, whatever callers pass: queued writes, row, overlay and puts in flight carry the numbers, records and objects of the calls |
| RecordFreshness.HarmlessReadIsFresh | apps/gateway/src/responses-registry.ts:119-154 | if the calls are harmless, a read that starts after a put began is told only of a live record of its owner that some call from that put on was given |
| RecordFreshness.SharedObjectGoesStale | apps/gateway/src/responses-registry.ts:123-125 | for any calls that are not harmless there is an interleaving in which a read is told of a record nobody gave since the put it follows |
| RecordFreshness.FreshExactlyWhenHarmless | apps/gateway/src/responses-registry.ts:118-154 | for any puts and putIfAbsents, deletions included: all interleavings keep every read from older records if and only if, wherever two puts share an object, the calls between were given the later record or a deletion |
| ResponsesRegistry.SharedObjectServesOldRecord | apps/gateway/src/responses-registry.ts:123-125 | three puts after which the store answers with the middle record |
| RealtimeRegistry.RealtimeCallRegistry.Put | apps/gateway/src/realtime-call-registry.ts:39-45 | the call becomes the newest entry after pruning |
| RealtimeRegistry.RealtimeCallRegistry.Take | apps/gateway/src/realtime-call-registry.ts:46-52 | only with the right key, and the entry is gone |
| RealtimeRegistry.RealtimeCallRegistry.Prune | apps/gateway/src/realtime-call-registry.ts:29-36 | expired entries go, then the oldest above the cap |
| RealtimeRegistry.RunKeepsInv | apps/gateway/src/realtime-call-registry.ts:25-57 | with a clock that does not run backwards: ordered by expiry, one entry per call, within the cap |
| RealtimeRegistry.TakeIsEntitled | apps/gateway/src/realtime-call-registry.ts:46-52 | a successful take answers the last put of that call, with its key, before it expires, and nobody took it before |
| RealtimeRegistry.UnclaimedCanBeTaken | apps/gateway/src/realtime-call-registry.ts:29-52 | an unclaimed binding can be taken until it expires if fewer than maxEntries other calls were put since |
| RealtimeRegistry.EveryEntryIsUnclaimed | apps/gateway/src/realtime-call-registry.ts:39-52 | whatever is stored is the last put of its call and was not taken |
| ClientConnect.Connection.Apply | scripts/client-connect.ts:111-130 | receipt first, config second, refused on any change in between, stopped anywhere |
| ClientConnect.Connection.Rollback | scripts/client-connect.ts:132-153 | the block goes if it is there and the marker is there once, then the receipt |
| ClientConnect.ApplyThenRollbackIff | scripts/client-connect.ts:72-153 | the exact original comes back exactly when URL and model do not contain the begin marker |
| ClientConnect.MarkerLaneIsStuck | scripts/client-connect.ts:144-145 | a lane named like the marker is applied and never rolled back |
| ClientConnect.InterruptionsAreRecoverable | scripts/client-connect.ts:111-153 | after any applies and rollbacks stopped anywhere, no receipt and the original text, or one rollback away from it |
| ClientConnect.EditsAroundTheBlockSurvive | scripts/client-connect.ts:143-147 | a rollback keeps what was written before and after the block |
| ClientConnect.EscapingKeepsOccurrences | scripts/client-connect.ts:75-75 | JSON quoting neither hides a begin marker nor makes one |
| ClientConnect.BlockIsRemoved | scripts/client-connect.ts:145-146 | if the marker is there once, the first occurrence of the block is the one that was added |
| ClientConnect.QuotedIsReadBack | scripts/client-connect.ts:75-75 | a quoted URL or lane is read back as it was, up to its closing quote, whatever its characters |
| ClientConnect.ApplyTellsTheTruth | scripts/client-connect.ts:111-130 | done means connected, refused means a reason and no config written, interrupted exactly when a file operation was missing |
| ClientConnect.RollbackTellsTheTruth | scripts/client-connect.ts:132-153 | done means no receipt and the config without the block, refused means a reason and nothing written, interrupted exactly when a file operation was missing |
| ClientConnect.ReceiptComesFirst | scripts/client-connect.ts:125-128 | a stopped apply leaves the receipt before the config |
| ClientConnect.ReceiptGoesLast | scripts/client-connect.ts:149-151 | a stopped rollback leaves the config before the receipt is gone |
| ClientConnect.PreviewIff | scripts/client-connect.ts:51-78 | a preview is given exactly for a named lane on one line and a valid text without a connection that stays valid |
| SseWire.SplitWireEvents | apps/admin/src/lib/sse.ts:74-102 | the line loop equals the fold over lines |
| SseWire.EncodedStreamIsReadBack | apps/admin/src/lib/sse.ts:71-102 | any sequence of events, with either line ending, with or without spaces after the colons, with comments and unknown fields between them and carriage returns inside, is read back event by event with leading white space trimmed |
| SseWire.CutStreamIsReadBack | apps/admin/src/lib/sse.ts:71-102 | a capture that breaks off before its last blank line has its last event too |
| SseWire.RoundTripIff | apps/admin/src/lib/sse.ts:93-97 | an event comes back unchanged exactly when no field begins with white space |
| ChatStream.Accumulator.ConsumeOpenAiChunk | apps/admin/src/lib/sse.ts:167-227 | what a chunk adds to the assembly, and the kind and text of its event |
| ChatStream.Accumulator.ConsumeToolCalls | apps/admin/src/lib/sse.ts:188-207 | the fragments of one chunk merged one by one |
| ChatStream.ParseSseStream | apps/admin/src/lib/sse.ts:486-538 | for every stream, whatever the consumers of the other protocols do: the loop equals the fold over wire events, each routed to its consumer |
| ChatStream.EveryWireHasAnEvent | apps/admin/src/lib/sse.ts:501-536 | one event per wire event, in order, with its raw text, broken ones included |
| ChatStream.ChatStreamIsItsChunks | apps/admin/src/lib/sse.ts:521-535 | a chat stream is read chunk by chunk and its assembly is that of its chunks |
| ChatStream.ToolCallsAreAssembledByIndex | apps/admin/src/lib/sse.ts:188-207 | one call per index, in order of first appearance, with that index's arguments and names in stream order however interleaved, and its first id |
| ChatSender.ToolCallsArriveAsSent | apps/admin/src/lib/sse.ts:188-207 | for any chunks a server sends, encoded as JSON: one call per index sent, with the joined arguments and names sent for it, however interleaved, and its first id |
| ChatSender.TextArrivesAsSent | apps/admin/src/lib/sse.ts:167-227 | content, reasoning, finish reason and model are those the server sent |
| ChatSender.UsageArrivesAsSent | apps/admin/src/lib/sse.ts:135-139 | each usage entry is the last one sent under its key |
| ChatSender.EventShowsTheChunk | apps/admin/src/lib/sse.ts:167-227 | the event of a sent chunk has the kind and the text of what was sent |
| StreamSender.SentStreamIsShown | apps/admin/src/lib/sse.ts:486-538 | for any mix of events of the four protocols a server writes as text, with either line ending: the viewer lists them one by one and gives each to the consumer of its protocol |
| StreamSender.ChatStreamArrivesAsSent | apps/admin/src/lib/sse.ts:167-538 | from the text of a chat stream with its end mark back to the texts, finish reason, model and tool calls the server sent |
| ChatStream.AssemblyIsEventTexts | apps/admin/src/lib/sse.ts:208-220 | content and reasoning are the texts of their events, in order |
| ChatStream.ContentIsCompleteIff | apps/admin/src/lib/sse.ts:188-220 | all visible text is in the content exactly when no chunk drops some |
| ChatStream.EmptyToolCallsHideContent | apps/admin/src/lib/sse.ts:181-207 | an empty tool call list hides the content beside it |
| ChatStream.FinishIsLastModelIsFirst | apps/admin/src/lib/sse.ts:172-186 | the last finish reason is kept also beside text; the first model wins |
| ChatStream.UsageKeepsLatest | apps/admin/src/lib/sse.ts:135-139 | later usage entries replace earlier ones, none is lost |
| BlockedModels.CreateBlockedModelMatcher | packages/core/src/model-blocking.ts:5-28 | null iff no entry is left after trimming; else exactly the exact names and the compiled patterns |
| BlockedModels.GlobToRegExp | packages/core/src/model-blocking.ts:34-43 | the source is the anchored sequence of the pieces of the pattern |
| BlockedModels.CompiledPatternParses | packages/core/src/model-blocking.ts:34-47 | every pattern compiles, to the expression meant: escaping is complete |
| BlockedModels.CompiledPatternMeansGlob | packages/core/src/model-blocking.ts:34-47 | the expression matches exactly the names the pattern means |
| BlockedModels.ShortcutIsExactIff | packages/core/src/model-blocking.ts:17-24 | the set lookup agrees with the pattern on all ASCII names exactly when the pattern has no long s among ASCII |
| BlockedModels.MatcherBlocksWhatEntriesDo | packages/core/src/model-blocking.ts:22-27 | the matcher blocks a name exactly when some entry does |
| BlockedModels.MatcherMeansGlobs | packages/core/src/model-blocking.ts:5-47 | and then the meaning is the glob meaning, but for those entries |
| BlockedModels.GlobOfOne | packages/core/src/model-blocking.ts:34-43 | what one character of a pattern means: a star any text, a question mark any character, anything else that letter in either case |
| BlockedModels.GlobOfConcatenation | packages/core/src/model-blocking.ts:34-43 | patterns in a row match exactly names that can be cut into matches |
| BlockedModels.CaseDoesNotMatter | packages/core/src/model-blocking.ts:22-27 | names that differ only in case are blocked alike, whatever the entries are |
| BlockedModels.LongSIsReadTwoWays | packages/core/src/model-blocking.ts:16-25 | an entry read differently with and without a wildcard |
| Texts.TrimCutsSpace | packages/core/src/model-blocking.ts:14-14 | a trimmed text neither begins nor ends with white space, and what was cut is white space |
| DeepEqual.EqualIffSameMeaning | apps/admin/src/lib/deep-equal.ts:9-34 | equal exactly when the values are the same up to key order |
| DeepEqual.EqualIsAnEquivalence | apps/admin/src/lib/deep-equal.ts:9-34 | reflexive, symmetric, transitive |
| DeepEqual.KeyOrderIsIgnored | apps/admin/src/lib/deep-equal.ts:6-8 | reordering keys never shows as a difference |

## Left out

- ChatStream.ParseSseStream: the consumers of the Responses, Anthropic and Gemini branches are one parameter; only the chat consumer is modelled.
- StreamSender.SentStreamIsShown: the JSON writer and the parser are parameters, of which only that texts written on one line are read back is required; a data text of more than one line is covered by SseWire alone.
- ChatStream.Accumulator.ConsumeToolCalls: the map from index to call holds a position in the list of calls, where the source shares the call object between map and list.
- RecordFreshness.FreshExactlyWhenHarmless: store writes succeed, in the order they were issued, and there is no legacy blob, as for ResponsesRegistry.ReadIsNeverStale.
- ResponsesRegistry.ReadIsNeverStale: store writes succeed, in the order they were issued, and there is no legacy blob; the legacy path does not consult concurrent puts.
- ResponsesRegistry.RunKeepsInv: holds for sound runs, which those with distinct record objects are; record parsing is not part of this model.
- RealtimeRegistry.RunKeepsInv: needs a clock that does not run backwards.
- Supervisor.Supervisor.Run: plans, manifests, checkpoints, row ranges and the status file are replies of the environment; only their success and the facts the loop branches on are kept; progress on a calm host is stated up to the first full stage.
- SupervisorGuards.BuildUtcWindows: the date name of a window and non-integer arguments are not modelled.
- SupervisorGuards.EvaluatePreflight: measurements are real numbers; the source checks finiteness when it reads them.
- SpeechSocket.RunKeepsInv: the idle and session timers appear only as abort requests, the command queue only as the order in which commands arrive; the cap on running sockets is not modelled.
- ResponsesConnection.RunKeepsInv: the forwarding of a turn is one step with a result; whether admissions grant a lease is an input.
- UpgradeCapacity.NeverOverCapacity: the handshake itself and the rejection response are events.
- QuotaWorker.IdleAccountIsUpToDate: parsing of quota headers and the parking of accounts are not part of this model.
- SessionHistory.CapturedHistoryRestores: a digest is taken as the digested events, so it has no collisions; the limits on body size and revision count, which only skip a capture, are left out.
- SessionDelta.RestoreSessionRevision: a JSON text is either malformed or stands for its value.
- ClientConnect.ApplyThenRollbackIff: a digest is taken as the digested text, TOML validity is a parameter, the URL has been validated, lock files are removed by their owner; the JSON path for the other client depends on a foreign editor and is not modelled.
- ClientConnect.SeenEditsAreKept: an edit between the second read and the write is overwritten by the source and cannot be seen here.
- BlockedModels.MatcherMeansGlobs: names are ASCII without line breaks; case folding of other characters does not matter for them, lone surrogates in patterns are not characters here.
- DeepEqual.EqualIffSameMeaning: parsed JSON only, without NaN, undefined or repeated keys.
- ToolPairing.TranscriptKeepsEveryOutput: reading a request into turns, its size caps and the synthesized Gemini ids come before this pass and are not modelled.
- CodexConnection.RunKeepsInv: connecting, sending and the delay before a forced socket close are not modelled.
- Routing, breakers, rate limits, pool selection, protocol translators and store drivers are not part of this model.
- HTTP, WebSocket handshakes, proxies, the admin UI and configuration loading would only add easy members.
