# fwm, modelled and proved

fwm keeps SSH port forwards alive across failures, edits and daemon restarts. This project models the
parts of it that decide something hard and proves what they promise, for every input, every run and
every interleaving. It is Dafny 4.11 without libraries; `dafny verify dfyconfig.toml` checks it all.

Four towers, each from its data up to its theorems:

- **Verified recovery.** `Recovery` is the manager's durable identity and its counters. `LeaseWorld` is
  the deployed Linux helper as a state machine: processes with incarnations, listeners, connections,
  one record and one lock per (owner, rule), any number of managers and helpers, and one action for
  each observation or effect of the C code, so that anything may happen between two of them. One pass
  over a socket table, one pass over the descriptors of a process and the search through the ancestors
  count as one observation each.
  `Run(actions)` is the world after any list of actions. A registered session is one that was written
  into a record, whether or not the claim was answered, because a write can fail after its rename took
  effect. `LeaseSafety` is the invariant with its rely condition, `LeaseTheorems` what follows from it,
  and `LeaseEvidence` traces every record and every signal back to the looks that justify it, each taken
  by the very helper that acts on it, at the position of its code that takes it. `LeaseRuns` follows a
  helper that is let alone and has the runs in which the protocol is deceived; `LeaseOutcomes` and
  `LeaseAnswers` say exactly what such a helper makes of any world: every claim, confirmation and release
  ends as the records, processes and sockets have it, with its code and its record.
- **Listeners on one session.** `ListenerLog` is what goes over the wire (section 7.1 of RFC 4254) and
  what is outstanding. `RemoteWorker` is one remote listener, cut at its await points, and
  `WorkerRuns` its way into service, out of it and through refusals; `SessionState` and `Session` are the loop that reaps, cancels and starts workers, in any order with their polls,
  answers and the loss of the transport; `Relay` is the established phase of a two-server rule, with the
  loops of the program over a tape of everything the outside world does. What becomes of the phase is an
  exact function of that tape, and `RelayTapes` says which inputs decide it.
- **The engine.** `EngineState` is what it keeps, its invariant, and the plan a configuration turns into;
  `Requests` is retry and restart; `Engine` is the class with the loops. `Wiring` shows that the lists
  the engine queues meet what the session loop assumes.
- **Configuration and small parts.** `Configuration` (`validate`), `Migration`, `Selection`, `Addresses`,
  `HistoryCursor`, `Permits`, `Shell` (sections 2.2.1 to 2.2.3 of the POSIX Shell Command Language) and
  `Socks` (sections 3 to 6 of RFC 1928).

## What the proofs found

- Reconciliation increases its 64-bit generation counter without a check. It overflows exactly when the
  number of new editions does not fit any more; until then no generation is ever reused
  (`EngineState.AdmitAllNumbers`), after that they start again (`Wiring.OverflowStartsAgain`). Retry and
  restart check first and refuse.
- `reconnect_server` closes the sessions of the server before it looks at the configuration. If that is
  then refused, rules are left without a supervisor exactly when a session was closed
  (`Engine.Engine.ReconnectServer`, `Requests.ClosingUncovers`; `Engine.LoseSupervisors` is the failing
  input). This concerns a caller of the public method that passes a configuration `validate` refuses; the
  daemon passes the one it has committed itself (crates/fwm/src/daemon/dispatch.rs:183). Everything else
  the engine does, short of shutting down, keeps every rule covered.
- A relay that is cancelled between the grant of its listener and the answer to its confirmation steps
  down without giving the listener back. At a living source a listener is left behind exactly then, as
  can be told from what the world does (`Relay.Coordinator.Established`); `Relay.LeaveListenerBehind` is an
  input that does it.
- On a session that holds, a verified worker whose helper goes away while it is in service leaves its
  listener at the server when it is done, for the next session to recover; nobody else does
  (`SessionState.ListenersAreAccountedFor`, `Session.Connection.Poll`).
- The helper may register a claim on an address that is not free: it lets an ambiguous listing pass, and a
  bind that fails for another reason than an occupied address. The last probe decides
  (`LeaseRuns.LastProbeDecides`); unless such a probe fails, nothing listened there at some moment
  (`LeaseEvidence.UnlessProbesFailAddressesWereFree`). `LeaseRuns.ClaimedOverStranger` and
  `LeaseRuns.ReclaimedOverStranger` are runs in which one does.
- For a recorded session that was never confirmed and hides its descriptors, the listener at the old
  address is taken for its own exactly if the user is the same (`LeaseRuns.HiddenSessionIsSignalled`);
  `LeaseRuns.SignalledOverStranger` is a run in which it is somebody else's.
- The history cursor may report a gap although nothing is missing, because it forgets instances that have
  rotated out of a window (`HistoryCursor.ForgottenLooksLost`, with the exact condition in
  `HistoryCursor.AlarmsAreExact`); it never misses one (`HistoryCursor.NothingIsMissed`).
- The comments in relay.rs say that edits of labels leave an established bridge alone. `rule_changed`
  compares the whole rule, labels included (crates/fwm-core/src/engine/relay.rs:554-556), and so does
  the relay's watch channel; the model follows the code. For shared sessions label edits are silent.
- `migrate` changes schema version and rules before it can fail on an exhausted revision
  (`Migration.Document.Migrate`).

## Model

| member | source | states |
|---|---|---|
| Recovery.StateDirectory.Write | crates/fwm-core/src/cleanup/context.rs:156-179 | a save replaces the whole file or leaves it, and a failing save may still have replaced it |
| Recovery.StateDirectory.Open | crates/fwm-core/src/cleanup/context.rs:46-73 | an existing identity is adopted: opening a stored state returns exactly its owner and leaves the file; a damaged file is an error and never replaced; only a missing file yields a new owner, handed out only if it was saved durably; whoever gets an owner finds it stored |
| Recovery.StateDirectory.Reserve | crates/fwm-core/src/cleanup/context.rs:79-116 | the rule's counter is bumped by one and saved before the claim is handed out, with every field as asked for; another identity, damage, exhaustion and failed saves hand out nothing, each exactly in its case |
| Recovery.Restart | crates/fwm-core/src/cleanup/context.rs:46-116 | a daemon that opens its directory again, with whatever fresh name, keeps its identity, and the next claim of a rule is one above the last |
| LeaseWorld.FindsNearest | crates/fwm-core/src/cleanup/native_helper.c:355-374 | the search finds the nearest ancestor, within 32 parents and below init, that is an sshd of the same user holding the connection or hiding what it holds, whenever there is one |
| LeaseSafety.RunKeepsInvariant | crates/fwm-core/src/cleanup/native_helper.c:630-738 | every run of managers, helpers, processes and sockets keeps the protocol invariant: lock ownership, registered generations, settled history, justified signals, what each helper knows at each point of its code |
| LeaseSafety.HelperStable | crates/fwm-core/src/cleanup/native_helper.c:420-440 | what a helper has learned under the rule lock stays true whatever everybody else does |
| LeaseSafety.HelperStepPreserves | crates/fwm-core/src/cleanup/native_helper.c:630-738 | each observation or effect of a helper, whatever the environment answers, keeps the invariant |
| LeaseSafety.ManagerActionPreserves | crates/fwm-core/src/cleanup/context.rs:46-116 | opening, reserving and losing state files keep the invariant |
| LeaseSafety.SearchPreserves | crates/fwm-core/src/cleanup/native_helper.c:630-640 | looking for the own session and its connection, before the lock, keeps the invariant; what was found is a process the system has seen |
| LeaseSafety.SystemActionPreserves | crates/fwm-core/src/cleanup/native_helper.c:306-342 | process birth, exit and reaping, and arbitrary changes of sockets, keep the invariant; a crashed helper's lock is dropped |
| LeaseSafety.DecisionIsSound | crates/fwm-core/src/cleanup/native_helper.c:630-683 | whatever branch is taken between lock and write, the helper knows what the next step relies on: an old session is dead or is the one pinned, generations rise, the own session is not the old one; each look at a process, a socket table, a descriptor directory or a port is a step of its own (which branch is taken is exact in LeaseOutcomes) |
| LeaseSafety.PinIsSound | crates/fwm-core/src/cleanup/native_helper.c:556-580 | between pinning, setting the owner and looking again, the pid that will be signalled is the recorded incarnation, even if the pid was reused meanwhile |
| LeaseSafety.SendSignalPreserves | crates/fwm-core/src/cleanup/native_helper.c:556-580 | a signal is only sent to a session registered earlier for the rule under a smaller generation |
| LeaseSafety.CommitPreserves | crates/fwm-core/src/cleanup/native_helper.c:446-453 | replacing a record, also when the write reports failure after the rename, keeps every older session settled |
| LeaseSafety.UnlinkPreserves | crates/fwm-core/src/cleanup/native_helper.c:731-737 | deleting a record on release keeps every session settled |
| LeaseTheorems.EverySessionIsSettled | crates/fwm-core/src/cleanup/native_helper.c:630-737 | in every run each session ever written into a lease record is the current record's session, or dead, or was released by the helper that registered it |
| LeaseTheorems.OneLiveSessionPerRule | crates/fwm-core/src/cleanup/native_helper.c:630-737 | in every run a rule has at most one session that was registered and is neither dead nor released |
| LeaseTheorems.SignalsAreExact | crates/fwm-core/src/cleanup/native_helper.c:500-580 | every signal that reached a process reached exactly an incarnation registered earlier for the same owner and rule under a strictly smaller generation, and never the signaller's own session |
| LeaseTheorems.AddressRefusalSignalsNobody | crates/fwm-core/src/cleanup/native_helper.c:665-670 | a helper whose claim was refused because a changed address is occupied has signalled nobody since the claim began |
| LeaseTheorems.ReservationsAreOrdered | crates/fwm-core/src/cleanup/context.rs:79-116 | over any interleaving of managers no (owner, rule, generation) is handed out twice and later ones are larger |
| LeaseTheorems.RecordsAreFenced | crates/fwm-core/src/cleanup/native_helper.c:684-737 | one step from any reachable world: a standing record is removed only by its own helper's release, changed in place only by its own helper's confirm, and replaced only by a claim reserved later with a larger generation |
| LeaseTheorems.EffectIsFenced | crates/fwm-core/src/cleanup/native_helper.c:446-453 | the same for the single steps that write or unlink a record |
| LeaseTheorems.RunLeavesNoOrphans | crates/fwm-core/src/cleanup/native_helper.c:738-752 | a helper that is not alive has left its program |
| LeaseTheorems.CrashesNeverWedgeARule | crates/fwm-core/src/cleanup/native_helper.c:420-440 | in every run a rule's lock is held only by a live helper inside its critical section |
| LeaseEvidence.RunHasEvidence | crates/fwm-core/src/cleanup/native_helper.c:630-730 | in every run each helper's position in its code, each record and each signal is backed by looks of that very helper, each taken while it was running at the position of its code that takes that look, at that very object |
| LeaseEvidence.RecordsAreBacked | crates/fwm-core/src/cleanup/native_helper.c:678-730 | a session gets into a record only after its writer, each in a moment of its own, found it as the nearest fitting ancestor, saw the recorded connection, saw the address listed without a single listener (none, or an ambiguous listing), and probed it with a bind that succeeded or failed for another reason than an occupied address; a confirmed record names the one socket seen listening at exactly the claimed address for the session's user, held by the session, or with descriptors hidden while the standing record named the same connection |
| LeaseEvidence.UnlessProbesFailAddressesWereFree | crates/fwm-core/src/cleanup/native_helper.c:400-406 | unless a probe that this helper took of this address failed for another reason than an occupied address, there was a moment of the run at which nothing at all listened there |
| LeaseEvidence.SignalledSessionsWereVerified | crates/fwm-core/src/cleanup/native_helper.c:500-525 | whoever was signalled had a record of the same rule with a smaller generation; the signaller saw the recorded connection, and the target holding it, or hiding what it holds while the connection was exactly the recorded one; and it saw nothing listening at the recorded address with a probe that let it pass, or a single listener of the target's user that the target held or hid, the recorded socket if the record was confirmed |
| LeaseEvidence.DecisionBacked | crates/fwm-core/src/cleanup/native_helper.c:630-730 | whatever branch of claim and confirm is taken leads only to a position whose looks have been taken (which branch is taken is exact in LeaseOutcomes) |
| LeaseEvidence.SentSignalIsBacked | crates/fwm-core/src/cleanup/native_helper.c:556-580 | a signal is sent only after the old session's connection and listener were checked, each in a step of its own; a session still there was never found gone |
| LeaseEvidence.WrittenRecordBacked | crates/fwm-core/src/cleanup/native_helper.c:591-625 | what is written was observed before, by its writer |
| LeaseRuns.LastProbeDecides | crates/fwm-core/src/cleanup/native_helper.c:678-680 | from any reachable last probe, of a first claim or of a reclaim: if the write works, the claim is registered exactly if the bind found nobody listening or failed for another reason than an occupied address, whatever listens there; otherwise it is refused and the records stay |
| LeaseRuns.ClaimedOverStranger | crates/fwm-core/src/cleanup/native_helper.c:630-683 | a run from the empty world in which a claim is granted for an address where another process of the same user listens, because its bind failed for another reason |
| LeaseRuns.ReclaimedOverStranger | crates/fwm-core/src/cleanup/native_helper.c:630-683 | the same run goes on: the recorded session is signalled and dies, and the later claim is granted over the stranger's listener too |
| LeaseRuns.OldOwnerPasses | crates/fwm-core/src/cleanup/native_helper.c:650-657 | the look at who holds the old listener lets a claim pass exactly if the recorded session holds it or hides its descriptors, and a confirmed record names this very socket |
| LeaseRuns.HiddenSessionIsSignalled | crates/fwm-core/src/cleanup/native_helper.c:630-683 | in any world: an undisturbed claim over a session that is there, never confirmed, and hides its descriptors signals it exactly if nothing listens at the recorded address or a single listener of the same user does, whoever holds it; otherwise it is refused and nobody is signalled |
| LeaseRuns.SignalledOverStranger | crates/fwm-core/src/cleanup/native_helper.c:630-683 | a run that ends with such a session signalled although the listener at its address is held by another process |
| LeaseRuns.FirstClaimProbes | crates/fwm-core/src/cleanup/native_helper.c:630-680 | in any world an undisturbed first claim reaches its last probe in five steps |
| LeaseOutcomes.ClaimEndsAsFated | crates/fwm-core/src/cleanup/native_helper.c:630-683 | in any world: the exact outcome of an undisturbed claim of an idle helper with a session of its own. It is granted, reclaimed over a zombie, refused with this very code, or waits for the one session it has signalled, as the record, the old session, its connection and the two addresses have it; the record then standing is its own, field by field; nobody else is touched |
| LeaseOutcomes.DeadSessionIsSucceeded | crates/fwm-core/src/cleanup/native_helper.c:658-683 | in particular, over a session that is gone, with both addresses free, it is granted and nobody is signalled |
| LeaseOutcomes.LiveSessionIsSignalled | crates/fwm-core/src/cleanup/native_helper.c:500-577 | and over a living session that holds its connection openly, with both addresses free, exactly that session is signalled and waited for |
| LeaseOutcomes.WaitStage | crates/fwm-core/src/cleanup/native_helper.c:556-580 | once the signalled session is dead the claim goes on, granted as a reclaim exactly if nothing listens at its address; before that it stays where it is |
| LeaseOutcomes.SecondSignalKills | crates/fwm-core/src/cleanup/native_helper.c:556-577 | a session that outlives its first signal gets exactly one more, which kills |
| LeaseOutcomes.SurvivorIsLeft | crates/fwm-core/src/cleanup/native_helper.c:556-577 | if it outlives that too the claim is refused and nothing has changed |
| LeaseOutcomes.NoSessionNoClaim | crates/fwm-core/src/cleanup/native_helper.c:633-637 | a helper without a session of its own is refused before it takes the lock |
| LeaseOutcomes.FaultEndsClaim | crates/fwm-core/src/cleanup/native_helper.c:638-680 | an unreadable record, a bind that is not permitted and a signal that cannot be prepared end the claim, each with its code and with nothing changed |
| LeaseOutcomes.FailedWriteIsNoClaim | crates/fwm-core/src/cleanup/native_helper.c:446-453 | a record that could not be written, or not for sure, is no claim and no confirmation; the old record stands unless the rename had taken effect |
| LeaseAnswers.ConfirmEndsAsAnswered | crates/fwm-core/src/cleanup/native_helper.c:688-730 | in any world: the exact outcome of an undisturbed confirmation. It is positive exactly if the registry still names this claim, the session has its connection, and exactly one listener is listed, at the address itself, of the session's user, and held by the session or hidden under the recorded connection; each refusal has its code; the record is confirmed with this very socket exactly if the answer is positive |
| LeaseAnswers.ReleaseEndsTheLease | crates/fwm-core/src/cleanup/native_helper.c:731-737 | an undisturbed release takes the record out and ends the helper exactly if the registry still names this claim; a later one is left alone |
| Addresses.OverlapMeansSharedDestination | crates/fwm-core/src/model.rs:678-693 | two binds overlap exactly when some destination address would reach both, mapped addresses folded and `::` covering both families |
| Addresses.OverlapIsSymmetric | crates/fwm-core/src/model.rs:678-693 | overlap does not depend on the order of the two sockets |
| Addresses.HelperAgrees | crates/fwm-core/src/cleanup/remote_helper.py:76-84 | the helper's own overlap test agrees with the manager's on every pair of addresses |
| Addresses.CanonicalIsStable | crates/fwm-core/src/model.rs:682-687 | folding a mapped address twice changes nothing more |
| Addresses.MappedIsTheSameAddress | crates/fwm-core/src/model.rs:678-693 | two spellings denote one address exactly if they are equal or one is the IPv4-mapped form of the other |
| ListenerLog.AppendAll | crates/fwm-core/src/engine/remote.rs:298-330 | sending a batch moves exactly one worker's view, keeps everybody else's, and keeps the release rule if the batch does |
| RemoteWorker.StepKeepsWorker | crates/fwm-core/src/engine/remote.rs:19-189 | every poll of a remote worker under every session state and answer: on a session that holds, the server has, or is asked for, a listener exactly in the phases that say so or after the worker was severed from its helper; it finishes only if cancelled or disconnected; a release is sent only when nothing is outstanding, at most three listens for a verified rule, a route only after grant and confirm, the route leaves with the worker, nothing is started once told to stop |
| WorkerRuns.GrantedMeansServed | crates/fwm-core/src/engine/remote.rs:19-176 | from wherever it is on the way, however often it was refused: a worker whose requests are granted gets into service, with its lease if it is verified |
| WorkerRuns.ServedInOrder | crates/fwm-core/src/engine/remote.rs:19-176 | on the way it sends claim, listen and confirm once each, in this order, or just the listen |
| WorkerRuns.CancelledMeansDone | crates/fwm-core/src/engine/remote.rs:72-189 | a worker that is told to stop, wherever it is, is through after four answers; it has cancelled its listener if it had or wanted one, and offered its lease back if it held one |
| WorkerRuns.CancellationInterruptsWaits | crates/fwm-core/src/engine/remote.rs:72-189 | unless it is owed an answer it notices at the next poll, whatever that is about |
| WorkerRuns.RefusedAgain | crates/fwm-core/src/engine/remote.rs:72-117 | a refused listener is asked for again, without a bound if the rule is not verified, fewer than three times if it is |
| WorkerRuns.ThirdRefusalReleases | crates/fwm-core/src/engine/remote.rs:100-109 | the third refusal of a verified rule ends the attempts: the lease is offered back and the worker waits for its session to end |
| WorkerRuns.CancelledAgain | crates/fwm-core/src/engine/remote.rs:248-285 | a cancellation that is not confirmed is asked for again, as often as it takes |
| WorkerRuns.UnconfirmedIsUndone | crates/fwm-core/src/engine/remote.rs:119-143 | a listener the helper does not confirm is given back, then the lease |
| SessionState.DeliverKeepsOk | crates/fwm-core/src/engine/connection.rs:361-475 | whatever one worker does, the session keeps: no two workers with overlapping listeners, routes only of workers in service, safe releases, bounded listens, one claim |
| SessionState.ListenersAreAccountedFor | crates/fwm-core/src/engine/remote.rs:72-189 | at any moment of any run, while the session is neither disconnected nor closed: the server holds, or is asked for, a listener for exactly those workers that are in a phase that says so and those severed from their helper in service, gone or not |
| SessionState.FinishedMeansGivenBack | crates/fwm-core/src/engine/remote.rs:178-190 | so a finished worker has nothing left at the server, exactly unless it was verified and severed; and nobody finishes unasked |
| SessionState.InsertsNeverOverwrite | crates/fwm-core/src/engine/remote.rs:145-157 | installing a route never replaces a live one |
| SessionState.FreshView | crates/fwm-core/src/engine/connection.rs:427-447 | a new worker starts with nothing outstanding and nothing counted |
| SessionState.SpawnKeepsOk | crates/fwm-core/src/engine/connection.rs:400-448 | starting a worker whose rule has none and whose address nobody holds keeps the session invariant |
| SessionState.SpawnAllKeepsOk | crates/fwm-core/src/engine/connection.rs:400-448 | so does working through any list of desired rules |
| SessionState.SpawnAllServes | crates/fwm-core/src/engine/connection.rs:400-448 | working through the list never replaces a worker, starts only current editions of running rules, and leaves a running rule out only if its address is held |
| SessionState.CancelKeepsOk | crates/fwm-core/src/engine/connection.rs:383-399 | cancelling any workers keeps the session invariant |
| SessionState.ForgetKeepsOk | crates/fwm-core/src/engine/connection.rs:366-382 | forgetting finished workers keeps it; a verified one ends the session |
| SessionState.MatchIsUnique | crates/fwm-core/src/engine/connection.rs:109-131 | at most one route answers to an address, however it is spelled |
| Session.Connection.constructor | crates/fwm-core/src/engine/connection.rs:355-361 | a new session serves nothing and satisfies the invariant |
| Session.Connection.Poll | crates/fwm-core/src/engine/remote.rs:19-189 | one poll of one worker, in any order with everything else, keeps the invariant and replaces no route; a worker is severed exactly if it was in service for a verified rule and its helper's channel closed; one that is cancelled in service on a living session leaves its route and sends exactly a cancellation of its listener; it reports exactly when it begins to hold |
| Session.Connection.Reap | crates/fwm-core/src/engine/connection.rs:366-382 | exactly the finished workers leave; one that was verified retires the session |
| Session.Connection.CancelStale | crates/fwm-core/src/engine/connection.rs:383-399 | exactly the workers whose rule is gone, stopped or renewed are cancelled |
| Session.Connection.SpawnMissing | crates/fwm-core/src/engine/connection.rs:400-448 | the rules that can start do, nobody is replaced |
| Session.Connection.Iterate | crates/fwm-core/src/engine/connection.rs:361-475 | one turn of the loop: it breaks out exactly if cancelled, closed, retired by a finished verified worker or left with none; otherwise exactly the workers the list no longer asks for are cancelled, replacements start only after their predecessors finished, as blank workers of the current edition, and every running rule is served or blocked |
| Session.Connection.BeginDrain | crates/fwm-core/src/engine/connection.rs:476-485 | no more callbacks, everybody is told to stop, a broken transport is announced |
| Session.Connection.CancelSupervisor | crates/fwm-core/src/engine/connection.rs:427-429 | the supervisor's cancellation reaches every worker |
| Session.Connection.LoseTransport | crates/fwm-core/src/engine/connection.rs:452-465 | a lost transport keeps the invariant |
| Session.Connection.End | crates/fwm-core/src/engine/connection.rs:486-500 | the end of the drain keeps the invariant |
| Session.Connection.FindRoute | crates/fwm-core/src/engine/connection.rs:99-127 | the lookup answers with the one matching route, whatever order the hash map yields |
| Session.Connection.Accept | crates/fwm-core/src/engine/connection.rs:99-153 | a connection is bridged only for a worker in service whose listener was granted and, if verified, confirmed; and it is for any matching route whose worker is not cancelled |
| Relay.Coordinator.Established | crates/fwm-core/src/engine/relay.rs:295-551 | after any prefix of what the world does: releases only with nothing outstanding, one claim, at most three listens if verified, a route only after grant and confirm. The outcome, whether a bridge was up, whether a route is left, and whether a listener is left at a living source are exactly what the tape of inputs says; a lease that was granted is offered back to a living source unless it was abandoned for a cancellation |
| Relay.LeaveListenerBehind | crates/fwm-core/src/engine/relay.rs:452-470 | the input that leaves one: lease granted, listener granted, cancelled before the confirmation is answered, whatever comes after |
| Relay.Coordinator.BringUp | crates/fwm-core/src/engine/relay.rs:318-483 | everything before the bridge: whether it ends with a granted and, if verified, confirmed listener, or with which outcome it steps down, is exactly what the tape says; so is whether a granted listener is left behind for a cancellation |
| Relay.Coordinator.AwaitUntil | crates/fwm-core/src/engine/relay.rs:452-470 | a wait ends at the first input that answers it, and everything that arrived meanwhile has been noted |
| Relay.Coordinator.Request | crates/fwm-core/src/engine/remote.rs:298-330 | a global request is kept until its answer; the log shows exactly what was asked and answered |
| Relay.Coordinator.ReleaseLease | crates/fwm-core/src/engine/relay.rs:581-596 | a held lease's release is sent, only with nothing outstanding, and the helper's first answer decides the outcome: done, or needs attention, or retry |
| Relay.Coordinator.CancelListener | crates/fwm-core/src/engine/relay.rs:598-639 | it reports success exactly when the tape has the server confirm a cancellation, retries included, and then nothing is outstanding |
| Relay.Coordinator.ClaimLease | crates/fwm-core/src/engine/relay.rs:318-346 | at most one claim, whose fate is the first answer or cancellation after it; only a cancellation abandons it; without an identity or after a cancellation nothing is sent |
| Relay.Coordinator.BackOff | crates/fwm-core/src/engine/relay.rs:393-446 | a refused listener is waited out on the same sessions, through to the next timer exactly if no cancellation, edit or lost transport stops it; stepping down with both transports alive gives the lease back last |
| Relay.Coordinator.OpenListener | crates/fwm-core/src/engine/relay.rs:348-450 | granted exactly if the tape grants it within the attempts allowed; a verified relay gives up after three refusals; failure leaves nothing outstanding at a living source and gives the lease back if both transports live |
| Relay.Coordinator.ConfirmLease | crates/fwm-core/src/engine/relay.rs:452-483 | success means confirmed; it steps down for a cancellation exactly if there was one before or it comes in before the answer, and then the listener stays as it is; any other failure gives it back to a living source |
| Relay.Coordinator.Bridge | crates/fwm-core/src/engine/relay.rs:499-539 | when the bridge falls and with which outcome is exactly what the tape says |
| Relay.Coordinator.RemoveRoute | crates/fwm-core/src/engine/relay.rs:569-577 | only the own generation's route is removed |
| RelayTapes.BridgeStaysUpExactly | crates/fwm-core/src/engine/relay.rs:499-539 | a bridge stays up exactly as long as nobody cancels, drops or changes the rule, the control channel of a lease lives, and no look is taken at a transport that has closed |
| RelayTapes.FirstHarmDecides | crates/fwm-core/src/engine/relay.rs:499-539 | it falls at the first input that is not harmless; for a new edition exactly if that is a cancellation, a changed edition or the end of editions, and to be tried again otherwise |
| RelayTapes.RefusalsAreCounted | crates/fwm-core/src/engine/relay.rs:348-450 | after any number of refusals the listener is granted, unless the rule is verified and three refusals have come first |
| RelayTapes.ClaimAnswerDecides | crates/fwm-core/src/engine/relay.rs:318-346 | the first answer to the claim, or a cancellation before it, decides: attention or retry as the refusal says, a new edition for the cancellation |
| RelayTapes.ConfirmAnswerDecides | crates/fwm-core/src/engine/relay.rs:452-483 | so does the first answer to the confirmation, once listener and lease are given back |
| RelayTapes.InterruptionsAreAnswered | crates/fwm-core/src/engine/relay.rs:348-446 | before the listener is granted, cancellations and edits lead to a new edition, closed transports to a retry |
| Configuration.Validate | crates/fwm-core/src/model.rs:502-674 | a configuration passes exactly when it meets every requirement; a reported collision names two rules that must run together and cannot |
| Configuration.CheckServers | crates/fwm-core/src/model.rs:545-568 | the growing sets and the name pass accept exactly the sound server lists |
| Configuration.CheckForward | crates/fwm-core/src/model.rs:572-614 | the checks on one rule |
| Configuration.CheckForwards | crates/fwm-core/src/model.rs:569-643 | the growing sets and the set comparisons accept exactly the sound, distinct and unambiguous rule lists |
| Configuration.CheckNames | crates/fwm-core/src/model.rs:615-643 | names, ids and groups are kept apart |
| Configuration.NamesApartBySets | crates/fwm-core/src/model.rs:615-643 | the three set comparisons are equivalent to pairwise distinctness of names, ids and groups |
| Configuration.CheckListeners | crates/fwm-core/src/model.rs:644-672 | the pairwise scan accepts exactly when no same-side pair that is in one group or both running overlaps |
| Configuration.CollideMeansSharedDestination | crates/fwm-core/src/model.rs:644-672 | two rules collide exactly if they listen on the same host, at the same port, and some destination would reach both |
| Configuration.AcceptedRuleWorks | crates/fwm-core/src/model.rs:502-674 | what every rule of an accepted configuration may rely on: its servers exist, its name, id and group mean nothing else, and nothing that must run beside it collides with it |
| Selection.AnswerIsUnique | crates/fwm-core/src/model.rs:496-501 | in a sound configuration a string names at most one rule and, if it does, no group |
| Selection.ServerIsUnique | crates/fwm-core/src/model.rs:490-495 | in a sound configuration a string names at most one server |
| Selection.FindForwardFinds | crates/fwm-core/src/model.rs:496-501 | the lookup finds a rule that answers whenever there is one |
| Selection.GroupIdsExact | crates/fwm-core/src/model.rs:465-476 | a group selects exactly its members, once each |
| Selection.ServerIdsExact | crates/fwm-core/src/model.rs:478-489 | a server selects exactly the rules that reference it on either side, once each |
| Selection.ResolveIsExact | crates/fwm-core/src/selection.rs:15-23 | whatever resolves lists exactly the rules meant, once each; an error means there are none |
| Selection.SelectorHasOneMeaning | crates/fwm-core/src/model.rs:457-463 | a rule selector means the one rule it names, or else the group of that name |
| Migration.MigrationPreservesSoundness | crates/fwm-core/src/model.rs:385-455 | a legacy configuration that meets every requirement but the version still does after the upgrade, and is accepted unless its revision is at the limit |
| Migration.MigrationKeepsIntent | crates/fwm-core/src/model.rs:385-455 | ids, names, order, servers, listeners and desired state stay; exactly the remote rules of version 1 become verified and dedicated; a group is only added, and is a proper prefix of the name; the revision rises by exactly one while there are numbers left; a document that is current stays as it is |
| Migration.InferenceIsExact | crates/fwm-core/src/model.rs:409-455 | a rule without a group gets one exactly if its name is the group, a hyphen and the decimal form of its own port, another rule is named in the same way, the group is a good name that nobody goes by, and no two rules that would be in it collide |
| Migration.WritingIsUnique | crates/fwm-core/src/model.rs:418-424 | the decimal form is the one string of digits without a leading zero that denotes the number |
| Migration.InferencePreservesListeners | crates/fwm-core/src/model.rs:409-455 | an inferred group brings no two colliding rules together |
| Migration.InferencePreservesNames | crates/fwm-core/src/model.rs:409-455 | an inferred group is no rule's name or id |
| Migration.InferenceIsStable | crates/fwm-core/src/model.rs:409-455 | the result that makes one pass enough: inferring groups again changes nothing |
| Migration.SplitRebuilds | crates/fwm-core/src/model.rs:418-424 | splitting at the last hyphen loses nothing |
| Migration.Document.Migrate | crates/fwm-core/src/model.rs:385-408 | the in-place upgrade is the function whose properties are proved, with its error cases; it reports a change exactly if the revision rose by one; exhausted revisions leave an upgraded but uncounted document |
| Migration.Document.UpgradeEach | crates/fwm-core/src/model.rs:389-395 | version 1 remote rules become verified and dedicated |
| Migration.Document.InferLegacyGroups | crates/fwm-core/src/model.rs:409-455 | batch after batch, in whatever order, the loops assign exactly the groups that at least two rules ask for and that would not collide |
| Migration.CollectBatches | crates/fwm-core/src/model.rs:410-425 | each wished-for name with exactly the positions that wish for it, in order |
| Migration.CollectGrouped | crates/fwm-core/src/model.rs:428-436 | exactly the batch and the rules already in the group |
| Migration.AnyCollision | crates/fwm-core/src/model.rs:437-447 | the nested scan finds a collision exactly if there is one |
| EngineState.AdmitAllPlaces | crates/fwm-core/src/engine/mod.rs:120-263 | after working through the rules each has a current entry and is handed to exactly one list, under its own key |
| EngineState.AdmitAllNumbers | crates/fwm-core/src/engine/mod.rs:169-226 | generations handed out are new, the counter moves by exactly their number, and it overflows exactly when that number does not fit |
| EngineState.AdmitAllLeaves | crates/fwm-core/src/engine/mod.rs:169-226 | rules that are not mentioned keep their entries |
| EngineState.WakesExactlyOnChange | crates/fwm-core/src/engine/mod.rs:283-293 | the length test and the one-sided scan fire exactly when the set of (rule, generation) pairs changed |
| EngineState.ReconciledIsSane | crates/fwm-core/src/engine/mod.rs:93-303 | carrying out a plan gives every rule one current supervisor and keeps the engine invariant |
| EngineState.ReconciledIsFresh | crates/fwm-core/src/engine/mod.rs:169-226 | no rule gets a generation that was ever used while the 64-bit counter lasts; the counter moves by the number of new editions and overflows exactly if they do not fit |
| EngineState.ReconciledRenews | crates/fwm-core/src/engine/mod.rs:93-303 | field by field: a configured rule keeps generation and state exactly if nothing but its name, its group or the label of its server is new; any other change, of its own or of profiles, retry policy or routes, makes a new edition that begins as it should, and the supervisor of that edition is new or has been woken |
| EngineState.ServedIsLeftAlone | crates/fwm-core/src/engine/mod.rs:268-362 | a living supervisor with the same rules at the same generations over the same connections is neither replaced nor woken, but for new labels of a relay |
| EngineState.SettledKeepsEntries | crates/fwm-core/src/engine/mod.rs:169-226 | planning the rules an engine already serves, up to labels, moves no generation and no state |
| EngineState.CarriedPlanMatchesGroup | crates/fwm-core/src/engine/mod.rs:280-298 | and its lists wake nobody |
| EngineState.CarriedPlanMatchesRelay | crates/fwm-core/src/engine/mod.rs:308-362 | and its relays keep their identity |
| EngineState.SpawnGroupKeepsTasks | crates/fwm-core/src/engine/mod.rs:401-425 | a spawned supervisor keeps all tasks accounted for |
| EngineState.RetireGroupKeepsTasks | crates/fwm-core/src/engine/mod.rs:274-278 | a retired supervisor is cancelled and kept until it ends |
| EngineState.RetireRelayKeepsTasks | crates/fwm-core/src/engine/mod.rs:325-329 | the same for a relay |
| EngineState.SpawnRelayKeepsTasks | crates/fwm-core/src/engine/mod.rs:339-360 | the same for spawning one |
| EngineState.ReportKeepsSane | crates/fwm-core/src/engine/state.rs:86-115 | a report from any edition of any rule keeps the engine invariant |
| Engine.Engine.constructor | crates/fwm-core/src/engine/mod.rs:73-85 | a new engine serves nothing and satisfies the invariant |
| Engine.Engine.TaskEnds | crates/fwm-core/src/engine/mod.rs:427-442 | the death of any supervisor keeps the invariant and every rule covered |
| Engine.Engine.Update | crates/fwm-core/src/engine/state.rs:86-115 | a report is written only by the current edition of its rule, and keeps every rule covered |
| Engine.Engine.UpdatePrints | crates/fwm-core/src/engine/mod.rs:97-119 | every referenced server is resolved, again exactly if its connection options changed or it had no route; nobody else keeps one |
| Engine.Engine.AdmitEach | crates/fwm-core/src/engine/mod.rs:120-263 | the loop over the rules computes the plan whose properties are proved |
| Engine.Engine.DropObsolete | crates/fwm-core/src/engine/mod.rs:268-278 | exactly the supervisors nobody wants are cancelled and retired |
| Engine.Engine.RefreshGroups | crates/fwm-core/src/engine/mod.rs:280-298 | lists are replaced in place and missing supervisors started |
| Engine.Engine.DropStaleRelays | crates/fwm-core/src/engine/mod.rs:313-329 | exactly the relays whose rule or identity is gone are cancelled and retired |
| Engine.Engine.RefreshRelays | crates/fwm-core/src/engine/mod.rs:330-361 | relays are updated in place or started |
| Engine.Engine.ReviveGroups | crates/fwm-core/src/engine/mod.rs:427-442 | exactly the dead supervisors are replaced, for the same rules |
| Engine.Engine.ReviveRelays | crates/fwm-core/src/engine/mod.rs:364-399 | the same for relays |
| Engine.Engine.Supervise | crates/fwm-core/src/engine/mod.rs:268-303 | the supervisors serve exactly the wanted lists with the servers and policies their keys speak of, all alive; each that was there is replaced exactly if dead (or, for a relay, connected differently) and otherwise woken exactly if its list names something else; if they served already nothing happens |
| Engine.Engine.Reconcile | crates/fwm-core/src/engine/mod.rs:93-303 | after any history: a refused configuration changes nothing; an accepted one is served exactly, each rule by one living supervisor; each rule is renewed, and its supervisor told, exactly if something but labels changed, and whoever serves the same as before is left alone; each server is resolved again exactly if its options changed; nothing but labels happens if it was served already; the counter overflows exactly if the new editions do not fit |
| Requests.FirstsAreExact | crates/fwm-core/src/engine/lifecycle.rs:92-103 | the distinct requested ids in order of first occurrence |
| Requests.ReportIsFair | crates/fwm-core/src/engine/lifecycle.rs:100-128 | a restart affects every running rule, a retry exactly those whose supervisor has ended or whose state is none of established, starting and stopping; everything else is skipped for the reason that holds of it |
| Requests.BumpQueueBumps | crates/fwm-core/src/engine/lifecycle.rs:134-156 | each selected rule of a list gets its own new generation, entry and copy together, exactly once; nobody else's moves |
| Requests.BumpGroupKeepsRules | crates/fwm-core/src/engine/lifecycle.rs:134-156 | rewriting one list keeps every list in step with the entries |
| Requests.BumpRelayKeepsRules | crates/fwm-core/src/engine/lifecycle.rs:157-174 | the same for a relay |
| Requests.RequestDone | crates/fwm-core/src/engine/lifecycle.rs:132-176 | all walks together touch each affected rule once and keep every rule covered |
| Requests.ClosingUncovers | crates/fwm-core/src/engine/lifecycle.rs:36-72 | closing a server's sessions keeps coverage exactly when there were none |
| Engine.Engine.Sift | crates/fwm-core/src/engine/lifecycle.rs:92-128 | an unknown id refuses everything; otherwise the report is the partition |
| Engine.Engine.ReasonToSkip | crates/fwm-core/src/engine/lifecycle.rs:105-118 | a stopped rule is skipped as stopped; established, starting and stopping rules are skipped as such exactly for a retry with a living supervisor |
| Engine.Engine.RestartInGroup | crates/fwm-core/src/engine/lifecycle.rs:134-156 | the loop over one list computes the bump whose properties are proved |
| Engine.Engine.RequestGeneration | crates/fwm-core/src/engine/lifecycle.rs:83-178 | all or nothing on unknown ids and an exhausted counter; otherwise a restart affects every running rule and a retry exactly those nobody is driving to health, the rest is skipped for its own reason; affected rules start over under generations above all earlier ones, nobody else moves; a living supervisor stays and is told exactly if one of its rules is affected, a dead one is replaced |
| Engine.Engine.CloseServer | crates/fwm-core/src/engine/lifecycle.rs:36-71 | exactly the sessions of the server end |
| Engine.Engine.ReconnectServer | crates/fwm-core/src/engine/lifecycle.rs:24-74 | on success every session of the server has ended, the server is resolved again and the configuration is served; one that is refused while its rules are known and numbers are left is reported as such, and then leaves rules uncovered exactly when something was closed |
| Engine.LoseSupervisors | crates/fwm-core/src/engine/lifecycle.rs:24-74 | the failing input: any acceptable configuration with a rule on the server is served, then reconnected under an unknown schema version, and coverage is lost |
| Engine.LoseTheOnlyRule | crates/fwm-core/src/engine/lifecycle.rs:24-74 | one server and one rule suffice |
| Engine.Engine.RefreshSshConfig | crates/fwm-core/src/engine/lifecycle.rs:78-81 | every referenced server is resolved again and the configuration served, with only what that changes renewed; a refused one only forgets the routes |
| Engine.Engine.Shutdown | crates/fwm-core/src/engine/mod.rs:460-476 | no supervisor that was ever started is left |
| Wiring.QueuesFitSessions | crates/fwm-core/src/engine/mod.rs:127-166 | every list the engine queues is one a session may be given: no rule twice, a verified rule alone on its own session |
| Wiring.OneSupervisorPerRule | crates/fwm-core/src/engine/mod.rs:127-166 | no rule is on two sessions, or on a session and a relay |
| Wiring.OverflowStartsAgain | crates/fwm-core/src/engine/mod.rs:183-183 | after the counter has passed the largest 64-bit value, a rule gets a generation that was used before |
| HistoryCursor.Cursor.FromSnapshot | crates/fwm-core/src/history/cursor.rs:12-22 | the loop computes the snapshot whose properties are proved |
| HistoryCursor.Cursor.TakeNew | crates/fwm-core/src/history/cursor.rs:24-45 | the loop computes the scan whose properties are proved, and forgets what rotated out of a nonempty window |
| HistoryCursor.SnapshotTracks | crates/fwm-core/src/history/cursor.rs:12-22 | a snapshot knows exactly the last entry of every instance in its window |
| HistoryCursor.TakeNewIsExact | crates/fwm-core/src/history/cursor.rs:24-45 | one call delivers exactly what is new and in sight, in order; without a reported gap every delivery is one more than the last of its instance, and nothing of its instance lies in the hole between this window and the one before; and the cursor is ready for the next window |
| HistoryCursor.RunDeliversOnce | crates/fwm-core/src/history/cursor.rs:24-45 | over any run of forward-sliding windows each call delivers the stretch of the log that is new and in sight, so no entry is delivered twice and order is kept |
| HistoryCursor.CallIsLinked | crates/fwm-core/src/history/cursor.rs:24-45 | whatever was forgotten meanwhile, a call that reports no gap delivers only first entries of an instance and exact successors of entries snapshotted or delivered before |
| HistoryCursor.NothingIsMissed | crates/fwm-core/src/history/cursor.rs:24-45 | as long as no call of the run has reported a gap, every entry since the start of the snapshot that precedes a delivered one of its instance was snapshotted or delivered: none fell into the hole between any two windows |
| HistoryCursor.GapHasReason | crates/fwm-core/src/history/cursor.rs:34-36 | one call reports a gap only if the number before some delivery is neither in the window its memory comes from nor in what it has delivered so far |
| HistoryCursor.GapsAreExact | crates/fwm-core/src/history/cursor.rs:24-45 | over any run, empty windows included: a call reports a gap exactly if it delivers an entry whose predecessor is neither in its own window nor in the last one that was not empty |
| HistoryCursor.AlarmsAreExact | crates/fwm-core/src/history/cursor.rs:12-45 | from any snapshot: whenever a delivery lacks its predecessor a gap is reported, and a call is a false alarm exactly if some delivery is out of sight while the predecessors of all of them were snapshotted or delivered |
| HistoryCursor.ForgottenLooksLost | crates/fwm-core/src/history/cursor.rs:36-42 | a run with a false alarm: an instance that was forgotten with its window is back, every predecessor was delivered, and a gap is reported |
| Permits.StepKeepsOk | crates/fwm-core/src/engine/connection.rs:240-273 | each request, assignment, withdrawal and release conserves the four permits; that nobody waits while holding is how a supervisor asks, modelled as the guard of the request |
| Permits.RunKeepsOk | crates/fwm-core/src/engine/relay.rs:113-163 | so does every run of one-permit and two-permit supervisors |
| Permits.NeverStuck | crates/fwm-core/src/engine/mod.rs:81 | in every reachable state with waiters there is a free permit for the head of the queue or a holder to release one |
| Permits.EveryWaiterCanBeServed | crates/fwm-core/src/engine/relay.rs:113-163 | the result: from every reachable state releases and assignments alone serve any given waiter, so there is no deadlock |
| Permits.NobodyOvertakes | crates/fwm-core/src/engine/relay.rs:113-163 | as long as a supervisor waits, nobody who asked after it gets permits, however few they want |
| Permits.StepsDoWhatTheySay | crates/fwm-core/src/engine/connection.rs:240-273 | whoever asks, for one permit or two, queues last; whoever gives up or releases is out |
| Shell.RenderRoundTrips | crates/fwm/src/ssh_actions.rs:245-262 | a shell reads a printed command back as exactly the words it was made of |
| Shell.QuoteRoundTrips | crates/fwm-core/src/cleanup/lease.rs:488-490 | a quoted word is one argument, equal to the word |
| Shell.QuoteReadsBack | crates/fwm-core/src/cleanup/lease.rs:488-490 | with either way of writing apostrophes |
| Socks.Stream.Handshake | crates/fwm-core/src/engine/socks.rs:10-72 | the field-by-field reads and writes compute the parse whose properties are proved, bytes consumed and replies included |
| Socks.EncodedIsAccepted | crates/fwm-core/src/engine/socks.rs:10-72 | any encoded CONNECT, whatever follows, yields its destination, consumes exactly its bytes and answers only with the method choice |
| Socks.AcceptedIsEncoded | crates/fwm-core/src/engine/socks.rs:10-72 | nothing else is accepted: a success means the input begins with an encoding of the result |
| Socks.EncodingsDoNotNest | crates/fwm-core/src/engine/socks.rs:10-72 | no encoding is the beginning of a longer one |
| Socks.PrefixIsNotAccepted | crates/fwm-core/src/engine/socks.rs:10-72 | a strict prefix of an encoding never succeeds |
| Socks.MethodIsRefused | crates/fwm-core/src/engine/socks.rs:16-23 | a client without the one method there is gets the answer of section 3 and no more |
| Socks.RequestIsRefused | crates/fwm-core/src/engine/socks.rs:24-65 | reply 1 for a malformed request, 7 for a command other than CONNECT, 8 for another kind of address, each after exactly the header |
| Socks.NameIsRefused | crates/fwm-core/src/engine/socks.rs:40-55 | reply 8 for a name that is empty or no text |
| Socks.DestinationIsRefused | crates/fwm-core/src/engine/socks.rs:66-70 | reply 1 for port zero or a name with a zero byte |
| Socks.TextIsEncoded | crates/fwm-core/src/engine/socks.rs:48-54 | exactly the UTF-8 encodings of sequences of Unicode scalar values pass as text |

## Left out

- The macOS and Windows helpers, which order some checks differently, and the Python helper except for its overlap test.
- JSON parsing, request lines and record text in the helper: requests and records are structured values; records in an older format, the constant fields of a record and the reply text are not modelled.
- IPv6 in the helper, which answers "unsupported" for it.
- The ancestor search for the own session, with the connection it looks for, is one step, not one step for each process it reads; a pass over a socket table or over the descriptors of a process is one step, not one for each row or entry.
- Reads of /proc that fail although the process or table is there; the helper takes such a process for gone. Descriptors are hidden for a process as a whole or not at all.
- A full process identity (pid, user, boot, start time, name) is taken to occur once; pids are reused freely.
- Rule identifiers hashed with SHA-1 and fresh UUIDs are opaque strings; two managers never draw the same owner.
- An old copy of recovery.json put back from outside; losing or damaging the file is modelled.
- Timers, clocks and retry jitter: a timer may fire at any time.
- Relay.Coordinator.CancelListener: `source_gone` never fires inside the relay's cancel_listener, so it may wait for ever; a tape that runs out inside it suspends the phase.
- Session.Connection.BeginDrain: clearing the routes, announcing a broken transport and cancelling the workers are one step. The program does them in turn while worker tasks run, so a worker may install a route in between and take it out again when it sees its cancellation.
- Aborted and panicking workers in the middle of a step; supervisors may end at any time.
- Traffic itself, connection counters, event texts, error messages and retry counts in statuses.
- Resolving SSH configuration: the route is an arbitrary function of the server, and connection keys are structured values where the program writes them as JSON.
- What a connection waits for before it is established, and the outcome a session reports to its supervisor.
- The syntax of endpoints and of server connection options, and the size of the JSON encoding; the configuration carries the verdict of the first two.
- Which characters count as letters is a parameter.
- The order of ids within a resolved selection.
- The textual form of addresses in a SOCKS destination; names stay bytes, checked to be UTF-8.
- Configuration store, overrides, command line, doctor, daemon, IPC, framing and PowerShell quoting.
- Engine.Engine.CloseServer: a session's cancellation and the wait for its end are one step for each session, where the program first cancels all of them.
- Migration.Document.InferLegacyGroups: takes the batches in any order, where the program goes by name; the result is the same.
- Relay.Coordinator.Established: what the two sides do after stepping down, closing both transports, is not modelled.
