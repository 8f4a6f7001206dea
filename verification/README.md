# Continuum control plane, verified

A Dafny model of the remote-command system: a control plane that stores commands, asks for approvals and hands
commands to executors over web sockets; the executor at the far end with its replay cache and its file commands; the
improvement pipeline; and the version log of the file synchronisation. `dafny verify dfyconfig.toml` checks all of it.

## How it is built

The control plane is a state machine (`Server`) whose steps are whole service calls, each with one reading of a clock
that never goes back. `Lifecycle` describes what the server knows about one command as one record with its audit trail
and its messages; `ServerInvariant`, `ServerSteps`, `ServerMoves` show what every step keeps, `ServerRuns` what follows
for whole runs, `ServerReplies` what single calls answer and bring about, and `ServerPresence` who is shown online and
who gets a signal. The objects of the repository are classes (`StateStore`, `Services`, `CommandService`,
`DeviceGateway`, `Executor`), each method proved equal to a step of the state machine, so what is proved of runs holds
of them.
`EagerExpiry` relates the server, which expires a command when somebody looks at it, to one that expires at once.
`EndToEnd` puts server, channels that may lose what is under way, and machines together; `EndToEndResults` says that
the machines report truthfully.

`Interleaving` cuts every call at each `await`. `InterleavingAlone` shows that a call nothing interrupts does what the
whole call does. When calls do interrupt each other, `InterleavingSafety`, `InterleavingApprovals` and
`InterleavingDispatch` show what still holds, `InterleavingSettled` exactly when a finished command stays finished, and
`InterleavingLimits` what does not hold. `RegistryHistory` and `RegistryRuns` say what the connection registry
remembers. `PathText`, `FileTree`, `LocalFiles`, `LocalFileRuns`, `LocalFileTrips` and `FileCommands` are the file
commands over a filesystem tree with symbolic links. `CandidateEvaluator`, `Improvements`, `ImprovementRollback` and
`ImprovementService` are the improvement pipeline, `SyncLog` and `SyncService` the synchronisation. `Ordering` holds the
stable newest-first sort that the store applies.

Identifiers are numbers; those the server draws are fresh. Instants are integers. Checking a credential, the operating
system's decisions and everything a client sends are inputs. Results that reach the server are arbitrary, so nothing
proved of the server relies on honest executors.

## Where the code and its documentation differ

- `docs/architecture.md:53` says that a rollback restores the previous active version. The code restores the
  newest-created candidate among those rolled back: `ImprovementRollback.RollbackMissesPrevious` is a run in which that
  is another one, `ImprovementRollback.RestoresPreviousIff` says exactly when it is the same.
- `docs/architecture.md:47` says that replayed commands never execute twice. `EndToEndLimits.CommandExecutesTwice` is a
  run in which one does, and it meets the bound of `EndToEnd.ExecutionBound`. `Executor.ReplayOrExecute` says exactly
  when a command delivered again is replayed: while its result is in the cache with an age below 500.
- `docs/architecture.md:52` asks that edits from one base never silently overwrite. No version is ever lost, but with
  equal timestamps two of them count as conflict-free children of one base (`SyncLog.SameInstant`).
  `SyncLog.SecondChildIff` says exactly when that happens, and `SyncLog.AnotherChildIff` how a caller can tell before
  registering: just if nothing later in time than the base was registered at the place.

Two more things that a reader of the code would expect fail. Reading the path of a write gives back what was written,
except when the file took the place of the link through which its own directory was found: `LocalFileTrips.WriteThenRead`
says that this is the only exception and how to tell it before the write, `LocalFileTrips.WriteCutsItsOwnWay` is one. And
a device that greeted over a second socket before the close event of its first is shown offline while it is connected
(`ServerPresence.LateCloseShowsOffline`); `ServerPresence.CloseAnswers` says that it happens just then.

Cut at each `await`, two more promises of the code hold only under a condition. That a finished command stays finished
(`apps/api/src/commands/command.service.ts:170-173`, `ServerRuns.TerminalAbsorbs`) fails in
`InterleavingLimits.FinishedCommandReopens`, and `InterleavingSettled.SettledIff` says exactly when it holds. That an
approved command goes out (`apps/api/src/commands/command.service.ts:153-156`) fails in
`InterleavingLimits.ApprovedCommandLost`; `InterleavingDispatch.NoLostDispatch` says that this happens to no command but
one whose approval stands denied.

## Model

| member | source | states |
|---|---|---|
| ServerRuns.AuditTellsStatus | apps/api/src/commands/command.service.ts:86-92 | In every reachable state, replaying a command's audit events gives exactly its stored status; it was created once and first, a closing event is the last one, and the logged dispatches are as many as the messages sent. |
| ServerRuns.UnauditedUnchanged | apps/api/src/commands/command.service.ts:244-251 | Over any run, a command whose audit trail did not grow has the same command, approval, result and messages as before. |
| ServerRuns.TerminalAbsorbs | apps/api/src/commands/command.service.ts:170-173 | Once a command is succeeded, failed, cancelled or expired, no run changes its record, its first terminal result included. |
| ServerRuns.StatusOnlyForward | apps/api/src/commands/command.service.ts:117-256 | Over any run a status stays or moves strictly onward in the lifecycle. |
| ServerRuns.ApprovalAgrees | apps/api/src/commands/command.service.ts:71-84 | In every reachable state command, approval, result and messages agree: who needs an approval has one, its decision fits the status, it is consumed just if something was sent, a verified grant where biometrics are required, and the stored result fits the status or is `running` under `expired`. |
| ServerRuns.DecisionsStand | apps/api/src/commands/command.service.ts:204-213 | Over any run a decision made stays as made and an approval is consumed at most once. |
| ServerRuns.RequestsStand | apps/api/src/commands/command.service.ts:56-68 | Over any run what a command asks for, its owner, risk and time of creation never change. |
| ServerRuns.DispatchAuthorised | apps/api/src/commands/command.service.ts:196-232 | Every dispatch ever sent went to a socket that by then had authenticated as the target device of the same owner, before expiry and within 24 hours of creation, and after an approval in the log, verified for destructive and privileged tools. |
| ServerRuns.MessagesStayInAccount | apps/api/src/realtime/device.gateway.ts:59-89 | Every message, dispatch or signal, reached a socket that when it was sent had authenticated as its addressee, and came from within the addressee's account. |
| ServerMoves.StepMoves | apps/api/src/devices/device.service.ts:60-64 | Account non-interference: a step for a user or a device of theirs changes only records, devices, registry entries and messages of that user, and records only advance. |
| ServerRuns.NoLostDispatch | apps/api/src/commands/command.service.ts:160-163 | In every reachable state no unexpired queued command waits for a device that is online. |
| ServerRuns.DispatchBound | apps/api/src/realtime/device.gateway.ts:52-55 | A command is sent at most once more than its device said hello since the creation. |
| ServerRuns.OncePerHello | apps/api/src/storage/memory-state.store.ts:91-100 | Between two consecutive hellos of its device a command is sent at most once. |
| ServerRuns.NeverSentOnceReported | apps/api/src/commands/command.service.ts:174-185 | Once a result was accepted the command is never sent again. |
| ServerRuns.KeyNamesOneCommand | apps/api/src/storage/memory-state.store.ts:62-67 | In every reachable state a user's idempotency key names at most one command. |
| ServerRuns.CreateIsIdempotent | apps/api/src/commands/command.service.ts:36-52 | Repeating an accepted, unexpired request after any run returns the same command and changes nothing; another request under its key is refused as a conflict, or as bad if its own time is wrong, and changes nothing. |
| ServerRuns.ReachableInv | apps/api/src/commands/command.service.ts:117-256 | The one inductive invariant behind these, over commands, approvals, results, log, registry and messages, holds in every reachable state. |
| ServerSteps.StepInv | apps/api/src/realtime/device.gateway.ts:33-95 | Every step of the control plane keeps the invariant and takes nothing back. |
| ServerReplies.CreateAnswers | apps/api/src/commands/command.service.ts:35-95 | A request under a new key is accepted just if it expires within the next day and its device is an executor of the user with this tool, and refused as not found just if only the device is wrong; what is stored is the request itself, awaiting a fresh approval, at the device or queued as tool and connection demand, and no other command changes. |
| ServerReplies.DecideAnswers | apps/api/src/commands/command.service.ts:117-158 | A decision is accepted just if the user's command awaits approval, is unexpired and verified where it must be; then it has its verdict and goes out if the device is online; each refusal has its reason and changes nothing but an overdue command. |
| ServerReplies.GetAnswers | apps/api/src/commands/command.service.ts:97-101 | A user is shown their own command, expired first if it is overdue, and no other. |
| ServerReplies.ReportAnswers | apps/api/src/commands/command.service.ts:165-194 | A result is accepted just if it comes from the target device and the command is in flight or has ended the same way; only in the first case anything changes. |
| ServerReplies.HelloSendsPending | apps/api/src/commands/command.service.ts:160-163 | An accepted hello over an open socket sends over it, in order of creation, exactly one message for each unexpired queued or dispatched command of the device, and none else. |
| ServerReplies.ListAnswers | apps/api/src/commands/command.service.ts:103-106 | A listing shows the user's newest commands, each once, newest first, as many as asked for from 1 to 500, the overdue ones as expired, and leaves out none newer than one shown. |
| EagerExpiry.ListExpires | apps/api/src/commands/command.service.ts:103-106 | A listing marks exactly the overdue commands that it shows as expired, and changes nothing else but the log. |
| ServerPresence.HelloAnswers | apps/api/src/realtime/device.gateway.ts:44-57 | A hello is accepted just if the device is known and the credential right, and its socket is closed otherwise; accepted, it binds device and socket, closes the socket the device had, and shows the device online; commands stay as they are unless it is an executor. |
| ServerPresence.SignalAnswers | apps/api/src/realtime/device.gateway.ts:75-89 | A signal is delivered just if its socket speaks for a device and the target is a device of the same user with an open socket: as one message over that socket, naming the device the sender speaks for; nothing else changes. |
| ServerPresence.SocketAnswers | apps/api/src/realtime/connection-registry.service.ts:27-36 | A socket that leaves its open state changes nothing but that its device cannot be reached over it. |
| ServerPresence.PresenceAnswers | apps/api/src/realtime/device.gateway.ts:69-74 | A device is marked online by its accepted hello and by heartbeats over its own session, and offline by the close event of a socket that spoke for it; nothing else about a device ever changes. |
| ServerPresence.OnlineIsLastMark | apps/api/src/realtime/device.gateway.ts:28-31 | In every reachable state a device is shown online just if the last of its hellos, heartbeats and close events was no close event. |
| ServerPresence.CloseAnswers | apps/api/src/realtime/connection-registry.service.ts:17-21 | A close event shows the device offline, which is reachable all the same just if it had greeted over another socket that is still open. |
| ServerPresence.LateCloseShowsOffline | apps/api/src/realtime/device.gateway.ts:28-31 | A reached state in which that is so. |
| Protocol.PolicyIs | packages/protocol/src/policy.ts:9-65 | Reading tools run without asking, all others need approval, and the destructive and privileged ones need it verified. |
| Lifecycle.TrailShape | apps/api/src/commands/command.service.ts:165-194 | In a legal audit trail nothing follows a closing event and a command is created but once, at the start. |
| Lifecycle.NoDispatchAfterReport | apps/api/src/commands/command.service.ts:174-176 | In a legal audit trail no dispatch follows a report. |
| EagerExpiry.LazyRefinesEager | apps/api/src/commands/command.service.ts:234-255 | The lazy server and one that expires everything overdue at every tick answer every call of a run alike (up to when an expired command was marked) just if no result for a command in flight comes from its device at or after the expiry; then they also send the same messages. |
| EagerExpiry.FromTheStart | apps/api/src/commands/command.service.ts:234-255 | The same of both servers from the empty state on. |
| EagerExpiry.ReportTwins | apps/api/src/commands/command.service.ts:165-185 | On one result the two servers answer alike just if it is not such a late one, and then they stay alike. |
| EagerExpiry.LateResultTellsThemApart | apps/api/src/commands/command.service.ts:165-185 | Such a late result is accepted by the lazy server and refused by the eager one. |
| StateStore.MemoryStateStore.SetCommand | apps/api/src/storage/memory-state.store.ts:87-89 | An existing command keeps its place in the insertion order, a new one goes last. |
| CommandService.CommandService.Create | apps/api/src/commands/command.service.ts:35-95 | Takes all objects together exactly from the state before to the state after and gives the reply of the state machine's create. |
| CommandService.CommandService.Get | apps/api/src/commands/command.service.ts:97-101 | The same for get. |
| CommandService.CommandService.List | apps/api/src/commands/command.service.ts:103-106 | The same for list, over the copies it took of the stored commands. |
| CommandService.CommandService.Decide | apps/api/src/commands/command.service.ts:117-158 | The same for decide. |
| CommandService.CommandService.AcceptResult | apps/api/src/commands/command.service.ts:165-194 | The same for accepting a result. |
| CommandService.CommandService.DispatchPendingForDevice | apps/api/src/commands/command.service.ts:160-163 | The same for dispatching what is pending, whose copies stay true while the others are sent. |
| CommandService.CommandService.TryDispatch | apps/api/src/commands/command.service.ts:196-232 | The same for dispatching one command. |
| CommandService.CommandService.ExpireIfNeeded | apps/api/src/commands/command.service.ts:234-255 | The same for expiring one command. |
| DeviceGateway.DeviceGateway.OnMessage | apps/api/src/realtime/device.gateway.ts:33-95 | Every message of a client takes all objects exactly through the state machine's hello, heartbeat, result or signal. |
| DeviceGateway.DeviceGateway.OnHello | apps/api/src/realtime/device.gateway.ts:45-57 | The same for a hello, which attaches, sets presence and dispatches what is pending. |
| DeviceGateway.DeviceGateway.HandleDisconnect | apps/api/src/realtime/device.gateway.ts:28-31 | The same for a close event. |
| Services.ConnectionRegistry.Attach | apps/api/src/realtime/connection-registry.service.ts:10-15 | Both maps get the pair, and the socket displaced is closed. |
| Services.DeviceService.RequireExecutor | apps/api/src/devices/device.service.ts:60-64 | Succeeds just for an executor of this very user. |
| RegistryHistory.RegistryIsHistory | apps/api/src/realtime/connection-registry.service.ts:17-21 | For every sequence of attachments and detachments, a device is mapped to a socket just when that was the last one attached for it and it was not detached while bound to it. |
| RegistryHistory.RegistryHoldsLast | apps/api/src/realtime/connection-registry.service.ts:10-21 | If each socket is attached for one device only, the registry holds just the last socket attached unless that very socket was detached since. |
| RegistryHistory.TwoDevicesLeaveOneBehind | apps/api/src/realtime/connection-registry.service.ts:17-21 | A socket attached for two devices and then detached stays mapped for the first. |
| RegistryHistory.PlainHistoryIff | apps/api/src/realtime/connection-registry.service.ts:10-21 | Exactly when the registry tells the plain history of a device. |
| RegistryHistory.MapsAgree | apps/api/src/realtime/connection-registry.service.ts:10-21 | If each socket is attached for one device only, a socket found by device is bound to that device. |
| RegistryRuns.RunWires | apps/api/src/realtime/device.gateway.ts:28-31 | Over every run of the control plane, the two maps of the registry are what the accepted hellos and close events make of them; nothing else touches them. |
| RegistryRuns.ReachableRegistry | apps/api/src/realtime/device.gateway.ts:28-31 | In every reachable state, if each socket said hello for one device only, a device is mapped to a socket just when that was the last to say hello for it and has not been closed since. |
| ReplayCache.CacheAnswers | apps/client/src/executor.ts:48-61 | The cache holds at most 500 ids, none twice, and answers, with the last result of an unbounded log, for exactly the ids followed by fewer than 500 insertions of absent ids. |
| ReplayCache.JustCached | apps/client/src/executor.ts:56-61 | The result written last is found for its command. |
| ReplayCache.StoredAfter | apps/client/src/executor.ts:48-61 | Whether local storage was missing or unreadable at first, the same results leave the same cache. |
| Executor.ReplayOrExecute | apps/client/src/executor.ts:131-140 | A dispatched command is answered with its last result and not executed just while the cache answers for it; otherwise it is reported as running and executes. |
| Executor.AgeBound | apps/client/src/executor.ts:56-61 | Writing n more results ages an entry by at most n. |
| Executor.LocalExecutor.OnMessage | apps/client/src/executor.ts:113-161 | The handler changes the executor exactly as the machine does, and says whether an execution begins. |
| Executor.LocalExecutor.OnCompleted | apps/client/src/executor.ts:142-160 | The end of a job adds one result, which names its command and is a success with the output just if it ended well and a failure with the error just if it threw; it is what the cache answers from then on, and it goes out over the connection the command came in on. |
| Executor.CompletedTells | apps/client/src/executor.ts:142-160 | The same of the machine as a value; the other jobs go on. |
| Executor.StartShows | apps/client/src/executor.ts:86-102 | Starting stops the connection before it, leaves at most the new one live, and shows whether one is under way. |
| Executor.ConnectionShows | apps/client/src/executor.ts:104-130 | What a connection shows for each message and on closing, and that a stopped one changes nothing any more. |
| Executor.LocalExecutor.WriteCache | apps/client/src/executor.ts:56-61 | Assigning in place or at the end and keeping the last 500 entries is what the cache function says. |
| Executor.LocalExecutor.StartLocalExecutor | apps/client/src/executor.ts:85-184 | Starting stops the connection before it; at most one is live. |
| EndToEnd.ExecutionsAuthorised | apps/client/src/executor.ts:131-143 | Over every run of server, lossy channels and machines, each execution was caused by a dispatch of that very command which the server was entitled to send when it sent it. |
| EndToEnd.ExecutionBound | apps/api/src/commands/command.service.ts:196-221 | Over all machines a command executes at most once more than its device said hello since the creation. |
| EndToEnd.NoNewCauseOnceReported | apps/api/src/commands/command.service.ts:174-194 | Once the server accepted a result, every execution of the command, past or to come, was caused by a dispatch sent before, and they are at most as many as those. |
| EndToEnd.RedeliveryReplays | apps/client/src/executor.ts:131-135 | A command delivered again while the cache answers for it is not executed; its last result is sent again. |
| EndToEnd.SignalIsIgnored | apps/client/src/executor.ts:131-131 | A message that is no dispatch and no answer to the hello changes nothing in the executor. |
| EndToEndResults.ResultsAreTrue | apps/client/src/executor.ts:137-160 | Over every run each execution a machine began goes on or has ended, as often as it was begun; each end left exactly one result, in the order of the ends, which tells how it ended; all else a machine ever said of a command is that it is running, after it had begun, or such a result once more. |
| EndToEndResults.SuccessIsEarned | apps/client/src/executor.ts:142-160 | Over every run each success a machine reported belongs to a command it had begun, an execution of which ended with that output; each failure likewise to one that threw that error. |
| EndToEndLimits.CommandExecutesTwice | apps/client/src/executor.ts:131-158 | A run in which a command executes twice because its connection was replaced before its result was cached; the execution bound is met. |
| InterleavingSafety.ApprovalsVerified | apps/api/src/commands/command.service.ts:127-148 | With calls interleaved at every `await`, every granted approval that demands biometric verification is verified, and demands it just when the tool does. |
| InterleavingSafety.DispatchesApproved | apps/api/src/commands/command.service.ts:204-221 | With calls interleaved at every `await`, every dispatch of a command that needs approval, a repeated one included, comes after a write that grants it, verified where required. |
| InterleavingSafety.SegmentOk | apps/api/src/commands/command.service.ts:35-255 | Between two cuts every call does one admissible write, and the copies it carries on stay in order. |
| InterleavingAlone.AloneIsWhole | apps/api/src/commands/command.service.ts:35-255 | In every state that keeps the invariant, a create, get, decision, listing, hello or result that goes on from `await` to `await` with nothing in between ends, and leaves exactly the state of the whole call. |
| InterleavingApprovals.VerdictStands | apps/api/src/commands/command.service.ts:71-84 | With calls interleaved, a pending approval is stored but once: after any verdict was written the approval is there and not pending. |
| InterleavingApprovals.LostForGood | apps/api/src/commands/command.service.ts:204-209 | With calls interleaved, a queued command whose approval is denied, and of which no call in flight holds a dispatched, granted or pending copy, is queued or expired after every continuation and is never handed out. |
| InterleavingDispatch.NoLostDispatch | apps/api/src/commands/command.service.ts:69-93 | With calls interleaved, as soon as no create, decision or hello is in flight, an unexpired queued command whose device is online is left behind only if it needs an approval that stands denied. |
| InterleavingDispatch.LeftBehindForGood | apps/api/src/commands/command.service.ts:160-163 | With nothing in flight at all such a command is never handed out in any continuation; it stays queued until it expires. |
| InterleavingDispatch.NoLostApprovalFreeDispatch | apps/api/src/realtime/device.gateway.ts:52-55 | For tools that need no approval it is enough that no create and no hello is in flight. |
| InterleavingSettled.SettledForGood | apps/api/src/commands/command.service.ts:214-215 | With calls interleaved, a finished command that no call in flight can write back never changes again, in any run. |
| InterleavingSettled.SettledIff | apps/api/src/commands/command.service.ts:214-215 | A finished command stays as it is in every continuation if and only if no call in flight holds a copy of it that can still be written back: an unfinished one about to expire, one on its way to be sent or reported, or a decision that can find the approval pending. |
| InterleavingLimits.FinishedCommandReopens | apps/api/src/commands/command.service.ts:160-163 | A run in which a hello's old copy turns a succeeded command into a dispatched one and sends it once more. |
| InterleavingLimits.ApprovedCommandLost | apps/api/src/commands/command.service.ts:127-156 | A run in which an approval and a denial at the same time leave a command queued with nothing in flight, and in no continuation is it ever handed out. |
| PathText.ValidRelativeIff | apps/client/src-tauri/src/lib.rs:36-48 | The executor accepts exactly the texts that do not begin with a separator and have no parent piece. |
| PathText.SyncPathsAreValid | apps/api/src/sync/sync.service.ts:58-60 | Every path that passes the control plane's check is one the executor accepts. |
| PathText.SyncAcceptsIff | apps/api/src/sync/sync.service.ts:58-60 | That check passes just the texts that do not begin with a separator and have nowhere two dots between separators of either kind or ends. |
| PathText.SplitIff | apps/api/src/sync/sync.service.ts:58-58 | The pieces of a text are just what stands in it between two separators or ends, with no separator inside. |
| PathText.ValidStaysBelow | apps/client/src-tauri/src/lib.rs:41-46 | No accepted path climbs above the root at any point of the walk. |
| PathText.JoinRoundTrip | apps/client/src-tauri/src/lib.rs:160-166 | Proper names joined to a path are accepted and taken apart into the same names. |
| FileTree.WalkIsCanonical | apps/client/src-tauri/src/lib.rs:63-66 | Whatever links a path runs through, resolving it ends at a place with no link on the way to it. |
| FileTree.CanonicalResolves | apps/client/src-tauri/src/lib.rs:63-66 | Resolving a canonical place gives that place. |
| FileTree.WalkUndisturbed | apps/client/src-tauri/src/lib.rs:202-213 | A new entry does not change where any path resolved before ends. |
| FileTree.LinkLeads | apps/client/src-tauri/src/lib.rs:63-66 | A link that names a place, from the top or relative to its own directory, leads there, for one hop. |
| FileTree.RelativeLeads | apps/client/src-tauri/src/lib.rs:132-134 | From one place, going up to a directory above another and down by names leads to that one. |
| LocalFiles.ExistingInside | apps/client/src-tauri/src/lib.rs:60-71 | What is read, listed or trashed is a canonical place under the root. |
| LocalFiles.ReadInside | apps/client/src-tauri/src/lib.rs:175-189 | What is read is the content of a file under the root of at most 2 MiB. |
| LocalFiles.RootIsNotWritten | apps/client/src-tauri/src/lib.rs:76-84 | Writing to the root itself, by an empty path or by dots, is rejected. |
| LocalFiles.WriteContained | apps/client/src-tauri/src/lib.rs:192-218 | A successful write changes exactly one entry, the one the path names: its last name, in the directory to which the names before it lead from the root; that directory is canonical and under the root, and the entry then holds the whole content. |
| LocalFileTrips.WriteThenRead | apps/client/src-tauri/src/lib.rs:192-218 | Reading the path of a successful write gives exactly the content, just if the way to its directory does not run through the link the file replaced; otherwise the path leads nowhere. |
| LocalFileTrips.WriteCutsItsOwnWay | apps/client/src-tauri/src/lib.rs:213-216 | Writing `x/x`, where `x` is a link to its own directory, replaces that link, and the path is not found any more. |
| LocalFileTrips.WriteSucceedsIff | apps/client/src-tauri/src/lib.rs:73-94 | A write succeeds just if the content fits, the path has only names and dots and ends with a name, its directory and what it leads to now are under the root, the entry is no directory, and the operating system does its part to the last byte. |
| LocalFileTrips.ReadIff | apps/client/src-tauri/src/lib.rs:175-189 | A read gives a content just if the path has only names and dots and leads to a file with it under the root, at most 2 MiB and UTF-8. |
| LocalFileTrips.TrashIff | apps/client/src-tauri/src/lib.rs:220-228 | What a path leads to under the root is removed with all below it and nothing else, and the path leads nowhere then; otherwise nothing changes. |
| LocalFileTrips.EscapeRefused | apps/client/src-tauri/src/lib.rs:67-92 | A path that leads out of the root is refused for reading, trashing and writing, and nothing changes. |
| LocalFileTrips.ProgressIff | apps/client/src-tauri/src/lib.rs:209-212 | Writing again and again gets to the end just if enough is taken before a write takes nothing. |
| LocalFiles.WriteFails | apps/client/src-tauri/src/lib.rs:209-216 | A failed write leaves the tree as it was, unless its temporary file was made and cannot be removed: then just that file is new, whole if only the renaming failed. |
| LocalFiles.ApprovedIsCanonical | apps/client/src-tauri/src/lib.rs:131-144 | What is approved as a root is a directory reached without links. |
| LocalFileTrips.ApprovedIsChosen | apps/client/src-tauri/src/lib.rs:131-144 | Every directory is approved as itself, by its path from the top and by every path from the working directory that goes up and down to it. |
| LocalFileTrips.ApprovedIff | apps/client/src-tauri/src/lib.rs:131-144 | A root is approved just as the directory where the path leads, and only if it is one. |
| LocalFiles.ListRoundTrip | apps/client/src-tauri/src/lib.rs:147-173 | A listed entry has its name and says whether it is a directory; its relative path is accepted, joins back to the entry and, unless that is a link, resolves to it. |
| LocalFileRuns.RunContained | apps/client/src-tauri/src/lib.rs:50-94 | Over any run of approvals, writes and trashings no link is created and no place changes outside the roots approved by then. |
| FileCommands.FileExecutor.WriteTextFile | apps/client/src-tauri/src/lib.rs:192-218 | Step by step over the filesystem the result is that of the write, at the place the path names, and at every moment in between this place holds all of the old or all of the new content and nothing but the temporary file differs. |
| FileCommands.FileExecutor.WriteAll | apps/client/src-tauri/src/lib.rs:209-212 | Writing again and again puts a beginning of the content into the file, all of it just on success, and touches nothing else. |
| FileCommands.FileExecutor.ListDirectory | apps/client/src-tauri/src/lib.rs:147-173 | Shows just the entries of the resolved directory, all of them and each once, with its path from the root. |
| FileCommands.FileExecutor.ReadTextFile | apps/client/src-tauri/src/lib.rs:175-189 | Returns what the read function says, which is the content of a file at a canonical place under the root and at most 2 MiB. |
| FileCommands.FileExecutor.TrashPath | apps/client/src-tauri/src/lib.rs:220-228 | Removes just the resolved place and what is below it. |
| FileCommands.FileExecutor.ApproveLocalRoot | apps/client/src-tauri/src/lib.rs:131-144 | Records the directory where the path leads, just if it is one, and nothing else. |
| CandidateEvaluator.MatchesPhrases | apps/api/src/improvements/candidate-evaluator.ts:3-9 | A pattern of optional and alternative parts matches just where one of the phrases it stands for begins. |
| CandidateEvaluator.SafeIff | apps/api/src/improvements/candidate-evaluator.ts:14-14 | A text is safe just when no unsafe pattern matches anywhere in it. |
| CandidateEvaluator.SafeIffNothingUnsafe | apps/api/src/improvements/candidate-evaluator.ts:3-9 | A text is safe just when none of the thirteen phrases of the patterns stands anywhere in it, each letter in either case. |
| CandidateEvaluator.CaseDoesNotMatter | apps/api/src/improvements/candidate-evaluator.ts:4-8 | Two texts that differ at most in the case of letters are both safe or both unsafe. |
| CandidateEvaluator.UnsafeNeverReady | apps/api/src/improvements/candidate-evaluator.ts:11-22 | A text with one of the phrases in it, in any mix of cases, is never made ready. |
| CandidateEvaluator.TrimIs | apps/api/src/improvements/candidate-evaluator.ts:12-13 | Trimming takes away nothing but blanks at both ends, and all of them. |
| CandidateEvaluator.UnitsAre | apps/api/src/improvements/candidate-evaluator.ts:13-13 | A length counts characters outside the basic plane twice, all others once. |
| CandidateEvaluator.ReadyIff | apps/api/src/improvements/candidate-evaluator.ts:11-22 | A candidate becomes ready just when its trimmed content changed, has at least 8 units and holds no unsafe phrase in any case, and fails otherwise; its score is the thirds of these three, and nothing else changes. |
| Improvements.EveryWriteGood | apps/api/src/improvements/improvement.service.ts:83-122 | After every single store write of a call at most one candidate per user and kind is active, and none is ready, active or rolled back that did not pass with full score. |
| Improvements.RunGood | apps/api/src/improvements/improvement-queue.service.ts:35-46 | The same after every run of calls and worker evaluations. |
| Improvements.RunFollows | apps/api/src/improvements/improvement.service.ts:68-81 | Over any run a failed candidate stays failed, one that passed stays passed, and content, owner and kind never change. |
| Improvements.RestoredIsNewest | apps/api/src/improvements/improvement.service.ts:106-110 | What a rollback restores is the newest-created of the other rolled-back candidates of the user and kind. |
| ImprovementRollback.RollbackRestores | apps/api/src/improvements/improvement.service.ts:100-122 | With distinct creation times a rollback puts the active candidate away, restores the newest of those put away, and changes nothing else. |
| ImprovementRollback.RollbackTwiceReturns | apps/api/src/improvements/improvement.service.ts:100-122 | If the candidate rolled back is newer than all others put away but the one restored, rolling that one back restores the first. |
| ImprovementRollback.RestoresPreviousIff | apps/api/src/improvements/improvement.service.ts:106-116 | A rollback restores what was active before just when that is the newest-created of those rolled back, or when there was none and none is rolled back. |
| ImprovementRollback.InOrderRestoresPrevious | apps/api/src/improvements/improvement.service.ts:83-116 | Over any run, if the candidates of a kind were activated in the order of their creation and none was rolled back, a rollback restores exactly the one active before. |
| ImprovementRollback.RollbackMissesPrevious | apps/api/src/improvements/improvement.service.ts:106-116 | A run in which a rollback restores another candidate than the one active before. |
| ImprovementService.ImprovementService.CreateCandidate | apps/api/src/improvements/improvement.service.ts:41-62 | Stores just the draft that was asked for, unevaluated and never activated. |
| ImprovementService.ImprovementService.Activate | apps/api/src/improvements/improvement.service.ts:83-98 | Takes store and history exactly through the activation, with at most one active candidate after each write, and says in its reply exactly why it is refused or what became active. |
| ImprovementService.ImprovementService.Rollback | apps/api/src/improvements/improvement.service.ts:100-122 | Takes store and history exactly through the rollback, with at most one active candidate after each write, and says in its reply exactly why it is refused or what was put away. |
| ImprovementService.ImprovementService.Evaluate | apps/api/src/improvements/improvement.service.ts:68-81 | Takes store and history exactly through the evaluation; it is refused just for a candidate that is not the user's or neither draft nor failed, and replies with the evaluated candidate, which is what is stored. |
| ImprovementService.ImprovementService.WorkerCallback | apps/api/src/improvements/improvement-queue.service.ts:35-46 | The same for the worker's evaluation. |
| SyncLog.RunKeeps | apps/api/src/sync/sync.service.ts:53-76 | Over any run no version and no root is lost or altered, each version is marked by what was the head of its place when it came, and each stands in a root of its user, on the device of that root, under a path that the executor accepts. |
| SyncLog.RegisterAnswers | apps/api/src/sync/sync.service.ts:53-76 | A registration is accepted just for a root of the user, from its device, an executor of the user, under a path that does not begin at the top and climbs nowhere; which reason refuses it; and what exactly is stored. |
| SyncLog.CreateRootAnswers | apps/api/src/sync/sync.service.ts:29-42 | A root is created just for an executor of the user, and says whose it is and where. |
| SyncLog.NoConflictIff | apps/api/src/sync/sync.service.ts:62-63 | With strictly increasing times a version is no conflict just if it is the first of its place or builds on the one registered there immediately before it. |
| SyncLog.SecondChildIff | apps/api/src/sync/sync.service.ts:62-76 | Of two versions of a place on one base, the first no conflict, the second is none just if the base is a version of the place and nothing later in time was registered there before the second. |
| SyncLog.AnotherChildIff | apps/api/src/sync/sync.service.ts:62-63 | The same before the second is registered, from the version registered last. |
| SyncLog.OneChildWithoutConflict | apps/api/src/sync/sync.service.ts:62-76 | With strictly increasing times at most one version of a place built on the same base is no conflict. |
| SyncLog.HeadIsLastIff | apps/api/src/storage/memory-state.store.ts:186-198 | The head is the version registered last just if its time is later than that of the one before it. |
| SyncLog.BuildingOnLast | apps/api/src/sync/sync.service.ts:62-63 | Building on the version registered last is no conflict just if that one is alone or later than the one before it. |
| SyncLog.SameInstant | apps/api/src/storage/memory-state.store.ts:191-197 | Four versions of one instant: the one built on the last is a conflict, and two conflict-free ones share a base. |
| SyncService.SyncService.RegisterVersion | apps/api/src/sync/sync.service.ts:48-87 | Takes the store exactly through the registration, loses no version, and what it stores stands in its root under an accepted path. |
| SyncService.SyncService.CreateRoot | apps/api/src/sync/sync.service.ts:29-42 | Creates a root just for an executor of the user. |
| Ordering.FirstOfNewestFirst | apps/api/src/storage/memory-state.store.ts:165-170 | Sorting newest first and taking the first match selects the newest match, the earliest inserted among equally new ones. |
| Ordering.NewestFirstSorts | apps/api/src/storage/memory-state.store.ts:79-85 | The newest-first sort orders its input and keeps every element. |

## Left out

- PostgreSQL, Redis and BullMQ plumbing, object-store presigning, NestJS wiring, request parsing, OIDC, the React interface, WebRTC peers, keyring, screenshots and process launch: foreign code; calls arrive validated.
- Timestamps as text: instants are integers, so the string comparison of listings is the comparison of instants; two spellings of one instant in a repeated request are one.
- A clock reading inside a call: in the whole-call model a call has one; cut at each `await` every part has its own.
- Command arguments and result bodies: texts that are only compared, so the order of JSON keys is not modelled; the cache object keeps insertion order because its keys are identifiers.
- Device names and the rule that they are unique per user, device capabilities beyond the tool list, and audit events that name no command.
- Replies the gateway sends back to the client that spoke (accepted, updated, error).
- Heartbeats and signals between the cuts of other calls: they touch presence and the message log only.
- Listing a whole account expires its overdue commands one after the other; the order in which the repository's code starts them at once does not matter to the properties.
- EndToEnd.ExecutionsAuthorised: speaks of executions begun, not of what a tool then does.
- File sizes and the case-insensitive order of a listing, Windows path prefixes, changes made by other processes while a command runs, and file names that are not UTF-8.
- FileCommands.FileExecutor.WriteTextFile: the claim about every moment supposes that the drawn temporary name is not the name of the target.
- The trash itself: what is trashed disappears from the tree.
- The queries for a stored result and for pending approvals, which only read.
- Memory records, feedback, the clamped audit listing and the server configuration: only easy members.
