# Robot harness: a verified model

The robot harness puts one authority gate between a host and the work it lets loose on a robot: the gate
admits one operation at a time, grants its dispatch once, revokes it, weighs evidence about what became of
it, and lets a provider be replaced only over closed work. Around the gate stand a compute host that owns a
real child process, a sample host with an in-process adapter, a recovery protocol in which one owner outlives
the hosts it serves, a differential drive that moves only under an open scope or a permission, and a framed
channel. This project models all of these and proves what they promise, over every run.

## How it is built

Every part has a specification of functions on values, lemmas about every run of those functions, and, where
the source updates objects in place, a class whose methods are proved to do what the functions say. A clock is
the stream of its readings; what a system call answers is an argument.

- **The gate.** `gate_types`, `gate_spec`: its state and a function for each call. `gate_invariant`: what every
  call keeps, and how a state may follow another. `gate_runs`, `gate_rebind`: any sequence of calls.
  `gate_laws`, `gate_evidence`, `gate_offers`, `gate_history`: what each call does, exactly, in terms of what is on
  record and not of how the gate decides. `gate_effects`, `gate_calls`: what a host may count on. `authority_gate`: the class.
- **The child and its owner.** `sums`: the 64-bit sum of the work. `frames`: 32 bytes and back. `worker`: what a
  child writes; `worker_ends`: how it ends. `process_spec`: the owner of a child process, with its errors.
  `frame_grammar`: which streams it lets pass. `termination`: when it kills. `supervision`: child, pipe and owner
  together. `compute_process`: the class, with its buffer and its bounded read loop.
- **The compute host.** `host_spec`, `host_invariant`, `host_steps`, `host_runs`: gate, child and result
  together. `host_laws`: what reaches the child, and what is reported of it. `host_delivery`, `host_limit`: the
  moment of delivery. `compute_host`: the class.
- **The sample host.** `sample_spec`, `sample_invariant`, `sample_steps`, `sample_runs`: gate, adapter, staged
  callbacks and the sink. `sample_service`, `sample_requests`, `sample_deferred`: what becomes of a request.
  `sample_host`: the class.
- **Recovery.** `recovery_protocol`: the messages. `owner_spec`, `owner_invariant`, `owner_runs`, `owner_answers`,
  `recovery_owner`: the owner. `client_spec`, `client_invariant`, `client_runs`, `client_answers`, `client_limit`,
  `recovery_client`: a host's end. `owned_child`, `conversation`, `client_conversation`, `recovery_system`,
  `recovery_runs`, `recovery_reports`: one owner, a client for each session, the bytes in flight and the children,
  in any interleaving.
- **The drive.** `permission_spec`, `motion_permission`: a lease with a fault latch. `drive_spec`,
  `drive_invariant`, `drive_runs`, `drive_writes`, `scoped_drive`: the drive's critical sections. `drive_laws`,
  `drive_speeds`: what each command, request and update does, exactly.
- **The channel.** `channel_spec`, `channel_runs`, `channel`: the framed transport of the Python bindings.

`machine` holds what all share: 64-bit numbers, options, decimal digits.

## Findings

Four promises of the source do not hold without exception. Each exception is proved exactly, and a concrete
run shows that it is there.

1. *The latest binding time never decreases* holds until admission is closed
   (`GateRuns.BindingTimeNeverDecreases`). Closing drops the candidate without recording a control time, so it
   takes the time back if and only if some record about the candidate is later than everything about the live
   binding (`GateRuns.ClosingForgetsCandidateTime`); `GateRuns.ClosingTakesTimeBack` is such a run.
2. *A client's gate never refuses it* holds until its evidence counter has run through all 64 bits
   (`ClientRuns.RefusedOnlyWhenRunThrough`, `ClientRuns.GateNeverRefuses`): a record numbered zero is refused.
   `ClientLimit.GateRefusesInTheEnd` builds the run, one operation after another.
3. *The compute host shows a result exactly when its gate accepted it* has the same exception, at the one
   delivery under the counter's last number (`HostDelivery.DeliveryIsExact`): the result is kept before the gate
   is asked. `HostLimit.ResultShownUnacceptedInTheEnd` builds the run, from polls of an idle host.
4. *A nonzero wheel speed comes from a command of the open scope* holds wherever any command is behind the
   speed (`DriveRuns.WritesCarryTheOpenScope`). Under an acceleration limit a drive that is moved while nobody
   commands it writes a correction of its own; `DriveWrites.UpdateForeseen` says on the state before the update
   exactly when, `DriveWrites.NonzeroWritesAreCommanded` makes it an if-and-only-if over runs, and
   `DriveWrites.PushedDriveCorrects` is such a run.

## Model

| member | source | states |
|---|---|---|
| GateRuns.AtIsValid | src/core/authority_gate.cpp:321-1190 | Whatever sequence of public calls a validly configured gate is given, it never reaches a state that its own partial reads could trip over or in which its receipt, candidate, phase and clock disagree |
| GateRuns.OperationsAreSerial | src/core/authority_gate.cpp:695-759 | Any two receipts seen in a run belong to one operation, or the later operation has the greater identity and begins no earlier than the last thing recorded about the earlier one |
| GateRuns.AdmissionNeedsRelease | src/core/authority_gate.cpp:695-759 | Work is admitted only over nothing or over released work that ended by the time of the request, while the binding is active and ready, and before the deadline asked for |
| GateRuns.IdentitiesAreNeverReused | src/core/authority_gate.cpp:738-758 | Identities given out by admission strictly increase along every run, from one upwards |
| GateRuns.ExhaustedIdentitiesStayExhausted | src/core/authority_gate.cpp:704-709 | Once identities have run out no call of any continuation admits work: the counter stops instead of starting over |
| GateRuns.DispatchedAtMostOnce | src/core/authority_gate.cpp:761-776 | In every run at most one claim for an operation is granted |
| GateRuns.StoppedAtMostOnce | src/core/authority_gate.cpp:229-298 | Cancellation, expiry and withdrawal together ask the host at most once to stop the native work of an operation |
| GateRuns.RevokedIsNeverDispatched | src/core/authority_gate.cpp:761-776 | After an operation is cancelled, expired or withdrawn no claim for it or for an earlier one is granted |
| GateRuns.RevokedIsNeverDelivered | src/core/authority_gate.cpp:1024-1061 | After an operation is revoked no output of it or of an earlier one is accepted |
| GateRuns.DeadlineIsRespected | src/core/authority_gate.cpp:761-817 | In every reachable receipt with a deadline, admission, dispatch and accepted output lie strictly before it and expiry not before it |
| GateRuns.DispositionIsExact | src/core/authority_gate.cpp:229-298 | The disposition kept in a receipt is always the one its facts determine, however many calls ago it was refreshed |
| GateRuns.ReleaseIsLeftOnlyByConflict | src/core/authority_gate.cpp:888-1022 | Released work is reopened by nothing but an accepted terminal fact contradicting the one it was released on, and then its outcome is unknown; admission alone replaces it |
| GateRuns.UnknownBlocksForever | src/core/authority_gate.cpp:888-1022 | Once a native outcome is unknown, no continuation admits work, begins a rebind or commits one, and the receipt keeps its operation |
| GateRuns.GenerationsIncrease | src/core/authority_gate.cpp:545-605 | Generations offered by rebinds strictly increase above the configured one, so an abandoned generation is never offered again |
| GateRuns.ExhaustionIsReported | src/core/authority_gate.cpp:586-592 | At the last generation exactly those rebinds that would begin with one more generation left are answered as exhausted, and they change nothing |
| GateRuns.CommitFencesOldAuthorities | src/core/authority_gate.cpp:649-693 | After a commit every control and evidence call naming an authority issued before it is refused and changes nothing, in every continuation, and its output cannot be delivered |
| GateRuns.BindingTimeNeverDecreases | src/core/authority_gate.cpp:176-200 | As long as admission is not closed the latest binding time never decreases along a run |
| GateRuns.ClosingForgetsCandidateTime | src/core/authority_gate.cpp:176-200 | Closing admission takes the latest binding time back if and only if some record about the candidate is later than everything recorded about the live binding |
| GateRuns.ClosingTakesTimeBack | src/core/authority_gate.cpp:1184-1189 | A concrete run of a valid gate in which closing admission takes the latest binding time back |
| GateLaws.StopIsAskedExactly | src/core/authority_gate.cpp:269-280 | In every run, when the operation in hand is cancelled, expires or is withdrawn, a native stop of it is asked for if and only if it is submitted, has no outcome and was not asked to stop before; the receipt then carries the time and the pending stop, and no other call asks for one |
| GateLaws.CancelIsExact | src/core/authority_gate.cpp:778-796 | A cancellation is refused where there is nothing to cancel, where its time is past, or where it was done before, and otherwise revokes the operation |
| GateLaws.ExpiryIsExact | src/core/authority_gate.cpp:798-817 | Expiry likewise, and exactly from the deadline on |
| GateLaws.WithdrawalIsExact | src/core/authority_gate.cpp:503-543 | A withdrawal is applied if and only if it names the live binding or its candidate and nothing remembered is later; of the live binding it revokes the work that is not released |
| GateLaws.ReadyIsExact | src/core/authority_gate.cpp:321-378 | In every run an active gate is ready if and only if it observed its scope idle, its worker ready and its sink ready |
| GateLaws.AdmissionIsExact | src/core/authority_gate.cpp:695-759 | In every run a request is admitted if and only if the binding is active and was observed ready in all three respects, identities are left, the request is for this gate and before its deadline, earlier work is released and nothing remembered is later, and what is offered supports it: same profile, available, at least as many units, still valid |
| GateLaws.RefusalSaysWhy | src/core/authority_gate.cpp:695-737 | What is refused is refused for the reason given |
| GateLaws.DispatchIsExact | src/core/authority_gate.cpp:761-776 | In every run a claim is granted if and only if it names the pending operation in hand of an active, ready binding, is neither before its admission nor at its deadline, the operation is not revoked and what is offered still supports it; it is then submitted at that time |
| GateEvidence.StartupIsExact | src/core/authority_gate.cpp:321-378 | Startup evidence is taken if and only if the gate is active without work and it is for the live binding, from the observer of that kind, not before the start, and newer than what is known, which it replaces |
| GateEvidence.BeginIsExact | src/core/authority_gate.cpp:545-605 | In every run a rebind is begun if and only if the binding is withdrawn, it is the one named, nothing remembered is later, no work is open, a provider is named, the closure of the old scope was observed, and a generation is left |
| GateEvidence.DispositionTellsFacts | src/core/authority_gate.cpp:229-298 | In every run work blocks for good exactly after contradicting ends, is released exactly once settlement was proved and its end and output are accounted for, and is otherwise revoked or current as its control facts say |
| GateEvidence.OutcomeTellsEnds | src/core/authority_gate.cpp:888-1022 | In every run the outcome is what the ends reported come to: none, the one, or unknown where they contradict each other |
| GateEvidence.NativeIsExact | src/core/authority_gate.cpp:888-1022 | A native event is taken if and only if it is about the submitted operation in hand, names one native identity throughout, follows what was heard in order, and is news |
| GateEvidence.OutputIsExact | src/core/authority_gate.cpp:1033-1061 | Output is accepted if and only if it is awaited, named, from the sink, after the success, before the deadline and before any revocation |
| GateEvidence.NonDeliveryIsExact | src/core/authority_gate.cpp:1063-1140 | Missing output is taken if and only if it is awaited, what it gives as the cause is on record, and it is the newest of its source |
| GateEvidence.SettlementIsExact | src/core/authority_gate.cpp:1142-1174 | Settlement is taken once, if and only if it permits new work, comes after all effects and is the newest of its source, and the end and the output are accounted for |
| GateEvidence.StopResponseIsExact | src/core/authority_gate.cpp:819-851 | A response to a stop is taken once, from the stop source, after the stop was asked for and before the release |
| GateEvidence.NonSubmissionIsExact | src/core/authority_gate.cpp:853-886 | That nothing was submitted is taken once, where nothing native was heard, and then the work counts as never run |
| GateOffers.ReadinessIsExact | src/core/authority_gate.cpp:607-647 | Evidence about a candidate is taken if and only if it is for that candidate, from the observer of its kind, not before the candidate was prepared, newer than what is known and valid when observed; repeating a number with something else marks the fact as contradicted, at the later time |
| GateOffers.OfferIsExact | src/core/authority_gate.cpp:452-480 | Capabilities of the live binding are believed if and only if admission is not closed and they are a proper offer, from its observer, not before the start and newer than those known |
| GateOffers.CandidateOfferIsExact | src/core/authority_gate.cpp:408-451 | Capabilities of a candidate are believed likewise, from its preparation on; repeating a number with another offer marks them as contradicted |
| GateOffers.CommitInstalls | src/core/authority_gate.cpp:649-693 | A commit applied leaves the candidate as the live, ready binding with just the observations, records and capabilities gathered about it, and the receipt, identities and generations as they were |
| GateHistory.ReceiptIsHistory | src/core/authority_gate.cpp:761-1174 | In every run the receipt in hand records exactly what the calls since its admission were answered: each record was put there by a call answered so, and every such call is recorded |
| GateHistory.HeldSince | src/core/authority_gate.cpp:695-759 | An operation still in hand was in hand at every moment since it was |
| GateHistory.HeldWasAdmitted | src/core/authority_gate.cpp:695-759 | In every run the operation in hand was admitted by a call of that run |
| GateRebind.CandidateIsFold | src/core/authority_gate.cpp:607-647 | What the gate holds about a candidate is determined by the calls made since it was prepared and by nothing before |
| GateRebind.FoldAcceptsAsAnswered | src/core/authority_gate.cpp:607-647 | A piece of evidence counts for a readiness kind exactly when the gate answered that call with acceptance |
| GateRebind.CommitRestsOnEvidence | src/core/authority_gate.cpp:649-693 | A commit is applied if and only if old work is closed, the closure evidence still holds, and for each readiness kind, and for capabilities where an observer is configured, the last evidence accepted since the rebind began is positive, unexpired and was not contradicted |
| GateRebind.PreparationWasBegun | src/core/authority_gate.cpp:545-605 | Whatever candidate is being prepared in a run was begun by a call of that run, so every applied commit is covered by the above |
| GateEffects.CallStaysInTime | src/core/authority_gate.cpp:176-298 | A host that makes its calls under a clock that does not run backwards never leaves a record later than that clock behind, whatever the call and however it is answered |
| GateEffects.OfferIsAccepted | src/core/authority_gate.cpp:1033-1061 | Output offered at the host's own time, well formed and before the deadline, is accepted by the gate whenever the gate says it can be delivered |
| AuthorityGates.AuthorityGate.Create | src/core/authority_gate.cpp:300-319 | A gate is made exactly from a valid configuration, and starts unbound to any work |
| AuthorityGates.AuthorityGate.ObserveStartup | src/core/authority_gate.cpp:321-378 | Takes startup evidence as specified and keeps the gate valid; rejected evidence changes nothing |
| AuthorityGates.AuthorityGate.ObserveExecutionCapabilities | src/core/authority_gate.cpp:408-480 | Takes capability evidence for the live binding or its candidate; evidence rejected with an effect has marked the candidate as contradicted |
| AuthorityGates.AuthorityGate.WithdrawBinding | src/core/authority_gate.cpp:503-543 | Withdraws the live binding or drops its candidate; of the live binding, a native stop is asked for if and only if its operation is submitted, has no outcome, is not released and was not asked to stop before; a refusal changes nothing |
| AuthorityGates.AuthorityGate.BeginRebind | src/core/authority_gate.cpp:545-605 | An applied rebind prepares the next unused generation; a refusal changes nothing |
| AuthorityGates.AuthorityGate.ObserveRebindReadiness | src/core/authority_gate.cpp:607-647 | Takes readiness evidence for the candidate; evidence rejected with an effect has marked a fact as contradicted |
| AuthorityGates.AuthorityGate.CommitRebind | src/core/authority_gate.cpp:649-693 | An applied commit makes the expected candidate the active, ready binding; a refusal changes nothing |
| AuthorityGates.AuthorityGate.Admit | src/core/authority_gate.cpp:695-759 | Admission hands out the next identity with a receipt pending dispatch; a refusal changes nothing |
| AuthorityGates.AuthorityGate.ClaimDispatch | src/core/authority_gate.cpp:761-776 | A claim is granted only for the pending operation it names, which is then submitted; a refused claim changes nothing |
| AuthorityGates.AuthorityGate.RequestCancel | src/core/authority_gate.cpp:778-796 | An applied cancellation leaves the operation no longer current and asks for a native stop if and only if it is submitted, has no outcome and was not asked to stop before; otherwise nothing changes |
| AuthorityGates.AuthorityGate.ObserveTime | src/core/authority_gate.cpp:798-817 | An applied expiry leaves the operation no longer current and asks for a native stop if and only if it is submitted, has no outcome and was not asked to stop before; otherwise nothing changes |
| AuthorityGates.AuthorityGate.ObserveStopAcknowledgement | src/core/authority_gate.cpp:819-851 | Takes a stop response; a rejected one changes nothing |
| AuthorityGates.AuthorityGate.ObserveNonSubmission | src/core/authority_gate.cpp:853-886 | Takes proof that nothing was submitted; rejected proof changes nothing |
| AuthorityGates.AuthorityGate.ObserveNative | src/core/authority_gate.cpp:888-1022 | Takes a native event, settling contradictions as specified; a rejected event changes nothing |
| AuthorityGates.AuthorityGate.ObserveOutputAccepted | src/core/authority_gate.cpp:1033-1061 | Takes acceptance of output; rejected evidence changes nothing |
| AuthorityGates.AuthorityGate.ObserveOutputNotDelivered | src/core/authority_gate.cpp:1063-1140 | Takes proof that output was not delivered; rejected proof changes nothing |
| AuthorityGates.AuthorityGate.ObserveSettlement | src/core/authority_gate.cpp:1142-1174 | Takes proof that cleanup is complete; rejected proof changes nothing |
| AuthorityGates.AuthorityGate.CloseAdmission | src/core/authority_gate.cpp:1184-1189 | Closes the gate and leaves its receipt as it was |
| Sums.ExpectedSumIsSum | src/compute/compute_execution.cpp:56-60 | For every 64-bit count the closed form is the sum of the squares of k mod 1000, reduced as 64-bit arithmetic reduces it |
| Sums.SupportedSumsDoNotWrap | src/compute/compute_execution.cpp:56-60 | Within the supported count no intermediate wraps and the closed form is the sum itself |
| Sums.ReferenceSum | examples/finite_compute_task.cpp:46-56 | The application's own loop over one period computes the very sum of the closed form, for every 64-bit count |
| Frames.DecodeEncode | src/compute/compute_protocol.hpp:9-38 | Every frame survives being written as 32 bytes and read back |
| Frames.EncodeDecode | src/compute/compute_protocol.hpp:9-38 | Every 32 bytes are the bytes of exactly one frame |
| Workers.TraceConforms | src/compute/compute_worker.cpp:89-142 | Whatever stops, dropped frames and failures the environment chooses, a worker within the limit writes its start, increasing progress with exact partial sums and an honest drop count, and one terminal frame |
| Workers.Run | src/compute/compute_worker.cpp:89-142 | The worker's loops terminate with an exit code and frames that are those of a conforming trace; the sum accumulates iteration by iteration without wrapping |
| WorkerEnds.EndIsExact | src/compute/compute_worker.cpp:89-142 | A child ends within two turns of its last batch: with zero if and only if no command came and nothing failed, as cancelled if and only if before some batch the stop was read and could be acknowledged, and as failed otherwise |
| FrameGrammar.StreamIsJudged | src/compute/compute_process.cpp:365-436 | The running checks let a sequence of frames pass if and only if the whole sequence is legal, and what they remember is then what the sequence says |
| FrameGrammar.BytesAreJudged | src/compute/compute_process.cpp:438-475 | Any bytes, read to their end in reads of any size, are found malformed if and only if they are not whole frames of a complete legal sequence; of complete ones the last frame is believed |
| Supervision.ChunkingIsInvisible | src/compute/compute_process.cpp:438-475 | However reads cut up the pipe and however often they are interrupted, two complete readings of the same bytes have seen the same |
| Supervision.OnlyFailureIsMalformed | src/compute/compute_process.cpp:365-475 | In every run of a child and its owner, the owner sees a malformed stream if and only if the stream has ended and the child was killed or failed to write a required frame |
| Supervision.TerminalFrameIsTrue | src/compute/compute_process.cpp:365-436 | In every run a terminal frame seen is true: completed with exactly the limit and its sum, or cancelled strictly below it, with its partial sum, after a stop was asked for |
| Supervision.ExitMatchesTerminal | src/compute/compute_process.cpp:477-501 | In every run, at the end of the stream the exit status and the terminal frame say the same |
| Termination.TerminationIsExact | src/compute/compute_process.cpp:316-337 | A poll requests termination if and only if the child is owned, not reaped by this poll and not attempted before, and the stream is malformed or in error, a request is open, a stop could not be delivered, or the grace since the stop was asked for is over |
| Termination.KilledExactly | src/compute/compute_process.cpp:316-337 | In every run of the owner's calls the first poll at or after the end of the grace kills a child that is still there, and no poll before it does without a fault or an undelivered stop |
| Termination.StopCountsFromFirst | src/compute/compute_process.cpp:288-314 | In every run the grace counts from the first request, which was delivered if and only if the child was there, its control channel open and the byte written |
| ComputeProcesses.ComputeProcess.Launch | src/compute/compute_process.cpp:213-286 | Launches at most once, and never a child that was asked to stop before or whose count is out of bounds; the child is in hand exactly where the system launched it, and errors of set-up are remembered |
| ComputeProcesses.ComputeProcess.DrainEvents | src/compute/compute_process.cpp:438-475 | The bounded read loop over the frame buffer takes from the pipe what the specification of draining takes, for every cutting up of the reads |
| ComputeProcesses.ComputeProcess.CloseChannels | src/compute/compute_process.cpp:339-352 | Channels are closed once, if and only if the exit of a child still owned was collected and its stream has ended; the answer says whether every one was |
| HostRuns.CallHandsOver | src/compute/compute_execution.cpp:341-517 | Every public call keeps the host's invariant and keeps the child in hand, or had none left to tend to; closing and a rejected record are final |
| HostRuns.ReleasedMeansGone | src/compute/compute_execution.cpp:274-327 | In every run an operation is released only when its child, if one was launched, has exited, reached the end of its stream and had its channels closed |
| HostRuns.ChildIsNeverDropped | src/compute/compute_execution.cpp:375-417 | In every run no call loses a child the host still owns or takes another for it |
| HostRuns.ShownResultIsAccepted | src/compute/compute_execution.cpp:274-327 | In every run, until the evidence counter has run through and a record was rejected, the host shows a result exactly when its gate accepted that output; the gate never accepts one that is not shown |
| HostRuns.AcceptedResultIsEarned | src/compute/compute_execution.cpp:274-327 | In every run accepted output is the exact sum for the request in hand, of a child that ran to its end and said so |
| HostRuns.ClosedMeansGone | src/compute/compute_execution.cpp:255-272 | In every run a shutdown reported closed has settled its work, owns no child, and stays closed |
| HostRuns.RebindKeeps | src/compute/compute_execution.cpp:131-212 | A provider is replaced only when nothing of the old scope is left, and then by the next generation; otherwise the old binding stands and no candidate remains |
| HostLaws.EndsAreTrue | src/compute/compute_execution.cpp:274-327 | In every run a receipt says success only of a child that exited with zero after all it was asked for, cancellation only of one that was asked to stop and ended as cancelled, failure only of one that did neither or could not be understood, and each only of a child that is gone |
| HostLaws.ChildServesRequest | src/compute/compute_execution.cpp:419-445 | In every run the child works on exactly the iterations of the request in hand, with the grace the host was made with |
| HostLaws.CancelReachesChild | src/compute/compute_execution.cpp:457-468 | Cancelling asks the child to stop if and only if its work is submitted, without an outcome and not asked before |
| HostLaws.ExpiryReachesChild | src/compute/compute_execution.cpp:221-225 | The deadline asks the child to stop likewise, exactly from that moment on |
| HostLaws.WithdrawalReachesChild | src/compute/compute_execution.cpp:116-130 | Withdrawing the live binding asks the child to stop likewise |
| HostLaws.PollKillsExactly | src/compute/compute_execution.cpp:470-504 | A poll of the host kills its child if and only if the child is still there, was not killed before, and something is wrong with it or its stop is overdue by the clock at that moment |
| HostLaws.OverdueChildIsKilled | src/compute/compute_execution.cpp:470-504 | A child that was asked to stop and could not be told, or has had its grace, and is still there, is killed by the next poll |
| HostLaws.PrepareIsExact | src/compute/compute_execution.cpp:375-417 | A request is prepared if and only if it is within bounds, no evidence was refused, the host is not shutting down, no earlier work is in hand, and its gate allows it |
| HostLaws.DispatchLaunches | src/compute/compute_execution.cpp:419-445 | A dispatch that says so has launched a child for just what was asked, and the gate holds the work as submitted |
| HostLaws.ClosedWorkIsSettled | src/compute/compute_execution.cpp:274-327 | Once the channels of a finished child are closed its work is settled, unless a record of it was refused, which is remembered |
| HostLaws.StopAnswerIsTrue | src/compute/compute_execution.cpp:238-254 | What the gate hears about a stop is what the child made of it: unavailable if it could not be told, refused if it ignored the stop, acknowledged if it said so |
| HostDelivery.DeliveryIsExact | src/compute/compute_execution.cpp:289-312 | A host that agrees with its gate agrees after a delivery if and only if the delivery does not hand out a result under the last number of the evidence counter |
| HostLimit.ResultShownUnacceptedInTheEnd | src/compute/compute_execution.cpp:89-96 | A run of public calls at the end of which the host shows a result that its gate has not accepted |
| HostLimit.RunningIsReached | src/compute/compute_execution.cpp:375-445 | For every number of the evidence counter from seven on there is a run whose host has an operation running at that number |
| ComputeExecutionHosts.ComputeExecutionHost.Create | src/compute/compute_execution.cpp:64-72 | A host is made exactly of a policy within its bounds |
| ComputeExecutionHosts.ComputeExecutionHost.Initialize | src/compute/compute_execution.cpp:341-359 | Reports capabilities and the startup facts; closed stays closed and a closed host has no child |
| ComputeExecutionHosts.ComputeExecutionHost.Prepare | src/compute/compute_execution.cpp:375-417 | Takes up work only where no child is left, and then holds the authority it returns |
| ComputeExecutionHosts.ComputeExecutionHost.DispatchPrepared | src/compute/compute_execution.cpp:419-445 | Dispatches what was prepared, once, and settles it where it could not be submitted; a closed host has no child |
| ComputeExecutionHosts.ComputeExecutionHost.RequestCancel | src/compute/compute_execution.cpp:457-468 | Revokes through the gate and asks the child to stop as the gate decides; a closed host has no child |
| ComputeExecutionHosts.ComputeExecutionHost.Poll | src/compute/compute_execution.cpp:470-504 | Attends to the child and reports its events, end and result as specified, with the process kept; an overdue child still there is killed; a closed host has no child |
| ComputeExecutionHosts.ComputeExecutionHost.BeginShutdown | src/compute/compute_execution.cpp:506-517 | Closes admission and cancels once; closed stays closed and a closed host has no child |
| ComputeExecutionHosts.ComputeExecutionHost.WithdrawBinding | src/compute/compute_execution.cpp:116-130 | Withdraws the provider and settles what was never submitted; a closed host has no child |
| ComputeExecutionHosts.ComputeExecutionHost.RebindProvider | src/compute/compute_execution.cpp:154-212 | An applied rebind had no child left and ends with the provider and executable asked for, active |
| SampleSteps.ProcessNextKeeps | src/sample/sample_execution.cpp:509-602 | Every event taken lightens what is left to process, even where taking it stages more, so processing all of them ends |
| SampleRuns.SinkIsWhatWasAccepted | src/sample/sample_execution.cpp:197-211 | In every run the sink holds a result of an operation if and only if the gate has at some moment accepted that operation's output |
| SampleRuns.SinkIsOrdered | src/sample/sample_execution.cpp:197-211 | In every run the sink is in strictly increasing order of operations: one result each at most |
| SampleRuns.ResultsAnswerRequests | src/sample/sample_execution.cpp:284-314 | In every run every result in the sink names its operation and reference, holds the square of each value the operation was prepared with, in their order, and the sum of those squares |
| SampleRuns.HistoryStays | src/sample/sample_execution.cpp:694-723 | What an operation was prepared with is never changed by any later call |
| SampleRuns.ShutdownIsFinal | src/sample/sample_execution.cpp:609-621 | In every run, once shut down the host stays so and its sink does not change |
| SampleRuns.RebindKeeps | src/sample/sample_execution.cpp:440-500 | An adapter is replaced only when nothing is pending, prepared or staged; otherwise the old binding and adapter stand and no candidate remains |
| SampleSpec.SumFits | src/sample/sample_execution.cpp:24-40 | No sum of squares of a valid request comes near the limits of 64 bits |
| SampleService.StoryEnds | src/sample/sample_execution.cpp:509-607 | Whatever the adapter makes of work, success, failure, rejection or cancellation, processing all events tells it to its end: the gate believes every part, the work is released, and the result joins the sink if and only if the work succeeded |
| SampleRequests.FreshHostIsReady | src/sample/sample_execution.cpp:645-662 | Whatever its clock shows, a host just made and initialized has its binding ready and nothing in hand |
| SampleRequests.PrepareIsExact | src/sample/sample_execution.cpp:694-723 | A host with nothing in hand takes up a request if and only if it is valid, the binding active and ready, identities are left and the deadline is not reached; otherwise only the clock moves |
| SampleRequests.RequestIsServed | src/sample/sample_execution.cpp:725-760 | A request taken up by a host with nothing in hand, whose adapter works at once, is dispatched and ends released; its result is in the sink if and only if it was neither rejected nor made to fail, and the host can then take up another |
| SampleDeferred.RequestIsHeld | src/sample/sample_execution.cpp:725-760 | A request taken up by a deferring host with nothing in hand is dispatched, the gate hears that it was accepted and nothing more, and the adapter holds it |
| SampleDeferred.HeldWorkEnds | src/sample/sample_execution.cpp:187-211 | Completing work that is held, and taking all events, ends it released: as cancelled, failed or succeeded as the adapter had it, with its result in the sink if and only if it succeeded |
| SampleDeferred.CancelReachesWork | src/sample/sample_execution.cpp:156-178 | Cancelling held work is applied and asks for a native stop; the gate hears the answer of the adapter's mode, and the work is cancelled if and only if the adapter cooperates |
| SampleDeferred.CancelledWorkEnds | src/sample/sample_execution.cpp:156-211 | Work held by a cooperative adapter, cancelled and then completed, ends released as cancelled, and the sink is as before |
| SampleExecutionHosts.SampleExecutionHost.Call | src/sample/sample_execution.cpp:645-852 | Every public call refines its specification and keeps the invariant; the sink only grows, by one result at most, and not once shut down |
| SampleExecutionHosts.SampleExecutionHost.ProcessAllEvents | src/sample/sample_execution.cpp:604-607 | The loop takes events until none is left, although taking one may stage another |
| SampleExecutionHosts.SampleExecutionHost.Square | src/sample/sample_execution.cpp:284-314 | The loop leaves the square of each value in its place and the sum of the squares, with the operation and the reference |
| OwnerRuns.OneChildAtATime | src/compute/recovery_owner.cpp:58-103 | In every life of the owner, a child is launched or a session activated only after every child launched before was reaped: exited, stream ended, channels closed |
| OwnerRuns.FaultIsFinal | src/compute/recovery_owner.cpp:58-91 | After a fault no host is attached, no session activated and no child launched |
| OwnerRuns.ResultsComeFromReapedChildren | src/compute/recovery_owner.cpp:156-198 | A result sent stands for a child launched in this session for this operation and amount and reaped before; it says success, with the value of the last frame, if and only if that child exited with zero after completing exactly that amount, and failure with no value otherwise |
| OwnerRuns.AnsweredOnce | src/compute/recovery_owner.cpp:105-154 | The result of a child is sent once or discarded once, never both |
| OwnerRuns.LaunchesAreConserved | src/compute/recovery_owner.cpp:105-198 | Launches equal results sent plus results discarded plus the one outstanding, across disconnects, retried sends and failed launches; the counters are these numbers in 64 bits |
| OwnerAnswers.ReapedIsAnswered | src/compute/recovery_owner.cpp:156-198 | In every life of the owner every reaped child is answered: its result was sent or discarded, or it is in hand for the session still connected, and is just what the child earned |
| OwnerAnswers.ChildIsObserved | src/compute/recovery_owner.cpp:156-198 | Observing the child is a fault, and ends the session, if and only if something went wrong or its channels do not close; it is reaped if and only if it exited, its stream ended and they close, and its answer is then in hand |
| OwnerAnswers.SendingIsExact | src/compute/recovery_owner.cpp:135-154 | A waiting reply is sent, waits on, or ends the session, which it does if and only if it is a second old or the peer is gone |
| OwnerAnswers.LeavingStopsChild | src/compute/recovery_owner.cpp:105-127 | Leaving a session asks its child to stop, unless it exited or was asked before |
| OwnerAnswers.LeavingDiscards | src/compute/recovery_owner.cpp:105-127 | Leaving a session discards an answer not sent, and counts it |
| OwnerAnswers.QueryIsAnswered | src/compute/recovery_owner.cpp:200-287 | A query is answered by whether the owner can serve, and a clear answer is the token to activate with |
| OwnerAnswers.ActivationIsAnswered | src/compute/recovery_owner.cpp:200-287 | An activation that carries the token within a second makes the session active and is answered with that token |
| OwnerAnswers.SubmissionIsAnswered | src/compute/recovery_owner.cpp:200-287 | A submission launches one child for just the amount asked for, says that none could be launched, or is a fault |
| OwnerAnswers.NothingElseIsAnswered | src/compute/recovery_owner.cpp:200-287 | Anything else a host sends ends its session, and no work waits in it any more |
| OwnedChild.PollKeepsTending | src/compute/recovery_owner.cpp:289-317 | Whatever an owner does in a poll, its process object stays the owner of exactly the child it launched, and its result true of that child |
| RecoveryOwner.Owner.Poll | src/compute/recovery_owner.cpp:289-317 | A poll refines its specification, with room for a reply whenever one is queued; what it makes of a finished child is success with the value of its last frame if and only if it exited with zero, completed, and came to the amount asked for |
| RecoveryOwner.Owner.Attach | src/compute/recovery_owner.cpp:58-91 | An attached host gets a new session, numbered one higher, and only where none was connected |
| RecoveryOwner.Owner.Disconnect | src/compute/recovery_owner.cpp:105-127 | Leaves no session connected or active and no operation waiting |
| RecoveryOwner.Owner.Clear | src/compute/recovery_owner.cpp:93-103 | Clear is answered only where no child is left to tend to |
| ClientRuns.RefusedOnlyWhenRunThrough | src/compute/recovery_client.cpp:107-231 | Whatever message arrives in whatever exchange, the gate refuses what the client makes of it if and only if the evidence counter would run past 64 bits |
| ClientRuns.SubmitKeeps | src/compute/recovery_client.cpp:303-337 | A submission is sent if and only if the client is open, bound and idle, its clock not before its last reading, the count within the limit and a request number left |
| ClientRuns.GateNeverRefuses | src/compute/recovery_client.cpp:97-103 | Against any peer, a client whose gate ever refused it has made at least 2^62 requests |
| ClientRuns.GenerationIsSession | src/compute/recovery_client.cpp:107-231 | Against any peer, the candidate and the binding of a client's gate are the generation of its own session |
| ClientRuns.ShownResultIsExact | src/compute/recovery_client.cpp:187-253 | Against any peer, a value a client shows, open or closed, is the sum for the iterations it asked for |
| ClientAnswers.HelloIsExact | src/compute/recovery_client.cpp:107-231 | A greeting names the session and leaves the gate withdrawn from the binding before it; anything else in its place ends the client |
| ClientAnswers.SnapshotIsExact | src/compute/recovery_client.cpp:107-231 | A snapshot that is not clear leaves the client blocked and free to ask again; a clear one in time makes it prepare the binding of this session and ask for activation with the number of its query; late or out of place it ends the client |
| ClientAnswers.ActivationIsExact | src/compute/recovery_client.cpp:107-231 | Activation with the number of the query, within a second of it, binds the client to its session |
| ClientAnswers.AcceptanceIsExact | src/compute/recovery_client.cpp:187-253 | An acceptance of the operation asked for is recorded natively, and its result is then awaited |
| ClientAnswers.ResultIsExact | src/compute/recovery_client.cpp:187-253 | A result shows its value if and only if it tells success and the sum; the receipt then says how the operation ended and is released, so that the next may be submitted |
| ClientAnswers.NothingElseIsBelieved | src/compute/recovery_client.cpp:187-253 | Anything else about an operation ends the client |
| ClientAnswers.PollGivesUp | src/compute/recovery_client.cpp:257-288 | A poll ends a client whose clock runs back, whose request is not sent or whose answer does not come within a second, and one whose peer is gone |
| ClientAnswers.SubmissionIsExact | src/compute/recovery_client.cpp:303-337 | A submission asks for just the iterations given, as the operation its gate has dispatched |
| ClientLimit.GateRefusesInTheEnd | src/compute/recovery_client.cpp:104-106 | A run in which the counter ends and the gate refuses a proper result |
| ClientLimit.ManyOperations | src/compute/recovery_client.cpp:303-337 | For every number of operations the counter allows there is a run that has just finished so many |
| RecoveryClient.Client.Poll | src/compute/recovery_client.cpp:257-288 | A poll refines its specification; a closed client stays closed and shows what it showed |
| RecoveryClient.Client.Recover | src/compute/recovery_client.cpp:290-301 | A recovery is asked for only by a blocked client, which then awaits a snapshot |
| RecoveryClient.Client.Submit | src/compute/recovery_client.cpp:303-337 | A submission sent is for the count asked for, within the limit, and forgets the value shown before |
| RecoveryClient.Client.Result | src/compute/recovery_client.cpp:251-253 | What is shown is nothing, or the sum for the operation last begun, open or closed |
| RecoverySystem.MoveKeepsSystem | src/compute/recovery_owner.cpp:289-317 | Every move of owner, clients, channels, children and clocks keeps the invariant of the whole protocol |
| RecoveryRuns.ShownValueIsGenuine | src/compute/recovery_client.cpp:187-253 | In every run of owner, clients, channels and children, a value shown is the exact sum, and the owner launched a child for it in this session, reaped it and closed its channels before sending it |
| RecoveryRuns.ClientsAreNeverMisled | src/compute/recovery_client.cpp:107-231 | In every run no client receives a message out of place: it closes only for its clock, its peer, lateness, its caller or the end of its counter |
| RecoveryRuns.BoundGenerationIsSession | src/compute/recovery_client.cpp:124-186 | In every run an open client's gate is prepared for, or bound to, the generation that is its session's number |
| RecoveryRuns.RequestsAreUnderstood | src/compute/recovery_owner.cpp:200-287 | In every run the owner answers the requests of an open client attached to it: a query always, an activation while its snapshot is fresh and a submission whenever a worker can be launched |
| RecoveryRuns.MovesAreDefined | src/compute/recovery_owner.cpp:129-134 | In every run a reply finds room and every read of an optional field finds it set |
| RecoveryReports.AnswersAreTrue | src/compute/recovery_owner.cpp:156-198 | In every run of owner, clients, channels and children, every answer sent is for a child launched in that very session and reaped; it says success, with the exact sum for what was asked, if and only if that child exited with zero |
| RecoveryReports.ReapedChildIsAnswered | src/compute/recovery_owner.cpp:156-198 | In every run every child reaped is answered by what happened to it: one that exited with zero by success and its sum, unless the session that asked was gone and the answer discarded |
| PermissionSpec.FaultIsForGood | integrations/ros2/simulation/native_drive/motion_permission.hpp:112-117 | Once a permission has failed it stays failed, whatever is asked afterwards |
| PermissionSpec.UseLiesInALease | integrations/ros2/simulation/native_drive/motion_permission.hpp:61-77 | A use allowed at a time lies within the lifetime of an opening or renewal granted to the same identity, with no addition wrapping |
| MotionPermissions.MotionPermission.Open | integrations/ros2/simulation/native_drive/motion_permission.hpp:36-60 | An opening is granted if and only if nothing failed, the identity is well formed and of the next generation, the lease is running, and it repeats the opening in force or zero was applied and scope and operation are new |
| MotionPermissions.MotionPermission.Renew | integrations/ros2/simulation/native_drive/motion_permission.hpp:61-72 | A renewal is granted if and only if it is of the active permission by its own identity, with a later lease that is running; it keeps the identity |
| MotionPermissions.MotionPermission.CanConsume | integrations/ros2/simulation/native_drive/motion_permission.hpp:73-77 | A use is allowed if and only if the permission is active for that identity, before the deadline and under a clock that has not run back |
| MotionPermissions.MotionPermission.Close | integrations/ros2/simulation/native_drive/motion_permission.hpp:78-90 | A close is accepted if and only if it is by the permission's own identity, and leaves it inactive |
| DriveRuns.OpeningFollowsZero | integrations/ros2/simulation/native_drive/scoped_diff_drive.cpp:823-938 | In every run a scope is opened only after one uninterrupted pass in which every wheel took zero, with nothing written or opened since |
| DriveRuns.SealedMeansZero | integrations/ros2/simulation/native_drive/scoped_diff_drive.cpp:641-676 | In every run nothing but zero is written between a seal and the next opening |
| DriveRuns.WritesCarryTheOpenScope | integrations/ros2/simulation/native_drive/scoped_diff_drive.cpp:641-751 | In every run whatever is written was made only of commands carrying the scope, generation and operation open at that moment |
| DriveRuns.WritesLieInALease | integrations/ros2/simulation/native_drive/scoped_diff_drive.cpp:903-982 | Under a permission every admitted write lies in the lease last granted to the identity now open, not sealed since |
| DriveRuns.SealedExactlyWhenInactive | integrations/ros2/simulation/native_drive/scoped_diff_drive.cpp:903-914 | After every critical section the drive is sealed if and only if its permission is not active |
| DriveRuns.FaultIsFinal | integrations/ros2/simulation/native_drive/scoped_diff_drive.cpp:903-914 | After a fault of the permission the drive writes nothing but zero and opens nothing |
| DriveLaws.ScopedCommandIsExact | integrations/ros2/simulation/native_drive/scoped_diff_drive.cpp:885-900 | A scoped command is taken if and only if it is finite and of the open scope and generation of an unsealed drive; the target is then just its linear and angular speed, and otherwise the drive is as it was |
| DriveLaws.PermittedCommandIsExact | integrations/ros2/simulation/native_drive/scoped_diff_drive.cpp:969-982 | A permitted command is taken if and only if it is finite, of the active identity and in time; the target is then just its two speeds, and a clock not believed seals the drive |
| DriveLaws.UnscopedCommandIsExact | integrations/ros2/simulation/native_drive/scoped_diff_drive.cpp:765-781 | A drive that nobody scopes takes every command until it is sealed |
| DriveLaws.AimIsLastCommand | integrations/ros2/simulation/native_drive/scoped_diff_drive.cpp:765-982 | In every run whatever the drive aims for on behalf of a scope is just what the last command taken asked for, with nothing opened, sealed or reset since |
| DriveLaws.OpenScopeIsExact | integrations/ros2/simulation/native_drive/scoped_diff_drive.cpp:823-860 | A scope is opened if and only if it is well formed, the drive is driven by generations, and it repeats the opening in force or zero was applied to a sealed drive and it follows the generation expected |
| DriveLaws.CloseScopeIsExact | integrations/ros2/simulation/native_drive/scoped_diff_drive.cpp:797-821 | A drive is closed by its first well-formed scope, and again only by that one |
| DriveLaws.CloseGenerationIsExact | integrations/ros2/simulation/native_drive/scoped_diff_drive.cpp:862-883 | A generation is closed exactly by its own number and scope |
| DriveLaws.OpenPermitIsExact | integrations/ros2/simulation/native_drive/scoped_diff_drive.cpp:916-938 | A drive is opened exactly where its permission grants the opening; a clock not believed seals it for good |
| DriveLaws.RenewPermitIsExact | integrations/ros2/simulation/native_drive/scoped_diff_drive.cpp:940-949 | A lease is renewed exactly where the permission grants it, and target and identity stay |
| DriveLaws.ClosePermitIsExact | integrations/ros2/simulation/native_drive/scoped_diff_drive.cpp:951-967 | A permission is closed exactly by its own identity, and the drive is sealed with its target at zero |
| DriveSpeeds.UpdateIsExact | integrations/ros2/simulation/native_drive/scoped_diff_drive.cpp:677-751 | An update of an open drive writes every wheel once, left before right: just the speed the target asks of that wheel, or one limited step towards it; where the permission runs out it breaks off, writes zeroes from there on and seals |
| DriveSpeeds.SealedUpdateIsExact | integrations/ros2/simulation/native_drive/scoped_diff_drive.cpp:641-676 | An update of a sealed drive writes zero to every wheel, and zero counts as applied exactly when every wheel took it |
| DriveSpeeds.StepIsLimited | integrations/ros2/simulation/native_drive/scoped_diff_drive.cpp:700-751 | A step towards a speed never exceeds its limit, and closes a gap that lies within it |
| DriveWrites.UpdateForeseen | integrations/ros2/simulation/native_drive/scoped_diff_drive.cpp:677-751 | An update writes a nonzero speed with no command behind it exactly where acceleration is limited, the pair is moving, neither target nor instruction comes from a command, and instruction plus correction is not zero; all of this can be read before the update |
| DriveWrites.NonzeroWritesAreCommanded | integrations/ros2/simulation/native_drive/scoped_diff_drive.cpp:677-751 | In every run a nonzero write is made of commands of the open scope if and only if the drive before the update did not foresee it as a correction of its own |
| DriveWrites.UnlimitedDriveIsCommanded | integrations/ros2/simulation/native_drive/scoped_diff_drive.cpp:677-700 | Without an acceleration limit, or once anything was commanded, no such correction is foreseen |
| DriveWrites.PushedDriveCorrects | integrations/ros2/simulation/native_drive/scoped_diff_drive.cpp:700-751 | A concrete run in which a pushed, uncommanded drive is driven against its motion |
| ScopedDrives.ScopedDrive.OnUpdate | integrations/ros2/simulation/native_drive/scoped_diff_drive.cpp:584-751 | The loops over wheels and pairs write, zero and plan as specified, stopping a pair whose left write is not admitted |
| ScopedDrives.ScopedDrive.OpenScope | integrations/ros2/simulation/native_drive/scoped_diff_drive.cpp:823-860 | An accepted opening leaves the drive open for the next generation, and a sealed drive had taken zero; a refusal changes nothing |
| ScopedDrives.ScopedDrive.CloseScope | integrations/ros2/simulation/native_drive/scoped_diff_drive.cpp:797-821 | An accepted close leaves the drive sealed on a well-formed scope; a refusal changes nothing |
| ScopedDrives.ScopedDrive.CloseGeneration | integrations/ros2/simulation/native_drive/scoped_diff_drive.cpp:862-883 | An accepted close leaves exactly the generation named sealed; a refusal changes nothing |
| ScopedDrives.ScopedDrive.OpenPermit | integrations/ros2/simulation/native_drive/scoped_diff_drive.cpp:916-938 | An accepted opening leaves a permission active before its deadline |
| ScopedDrives.ScopedDrive.ClosePermit | integrations/ros2/simulation/native_drive/scoped_diff_drive.cpp:951-967 | An accepted close leaves the permission inactive and the drive sealed |
| ScopedDrives.ScopedDrive.OnScopedCmd | integrations/ros2/simulation/native_drive/scoped_diff_drive.cpp:885-900 | A finite command with the open scope and generation of an unsealed drive leaves the drive aiming for just its two speeds on behalf of that scope; any other leaves the drive as it was |
| ChannelRuns.DeliveredInOrder | bindings/python/robot_harness/_transport.py:22-71 | In every run of two channels and the bytes between them, what comes out is a prefix of what was queued, in order and with its payloads, and no buffer exceeds its limit |
| ChannelRuns.NothingIsLost | bindings/python/robot_harness/_transport.py:33-71 | In every run, once nothing is on its way everything queued has come out |
| ChannelRuns.FullBufferHoldsFrame | bindings/python/robot_harness/_transport.py:39-71 | A full incoming buffer holds a whole frame, so the next turn delivers a message and makes room: it never stands still |
| ChannelRuns.TurnTakesFirst | bindings/python/robot_harness/_transport.py:48-71 | A turn takes out the first messages due, as many as are whole and at most sixteen, and leaves the rest due |
| Channels.Channel.Queue | bindings/python/robot_harness/_transport.py:22-31 | A message is queued whole, with its payload, or refused with the buffer unchanged; the buffer stays within its limit |
| Channels.Channel.Pump | bindings/python/robot_harness/_transport.py:33-71 | A turn refines its specification, takes out at most sixteen messages and keeps both buffers within their limits |

## Left out

- `GateRuns.BindingTimeNeverDecreases`: only until admission is closed, because closing takes the time back; exactly when it does is `GateRuns.ClosingForgetsCandidateTime`.
- `ClientRuns.GateNeverRefuses`: only below 2^62 requests, because the evidence counter wraps; the exact condition is `ClientRuns.RefusedOnlyWhenRunThrough`.
- `HostRuns.ShownResultIsAccepted`: only until the evidence counter has wrapped and a record was refused; the exact condition at each delivery is `HostDelivery.DeliveryIsExact`.
- `HostRuns.RebindKeeps`: says what a replacement needs and leaves, not that it succeeds, which depends on how the host's record numbers compare with those the gate knows; at the gate both are exact (`GateEvidence.BeginIsExact`, `GateRebind.CommitRestsOnEvidence`).
- `SampleRuns.RebindKeeps`: likewise.
- `DriveRuns.WritesCarryTheOpenScope`: says of which commands a written speed is made, and nothing of speeds made of none; those are exactly `DriveWrites.UpdateForeseen`.
- `RecoveryRuns.ShownValueIsGenuine`: about the sessions of one owner; owners in other processes are not modelled.
- `ChannelRuns.DeliveredInOrder`: about one direction of a connection, with messages written as text by any coding that reads back what it wrote; JSON itself is not modelled.
- `ComputeProcesses.ComputeProcess.Launch`: fork, execve and descriptor set-up are one answer of the system; a child destroyed because a descriptor would not close is gone at once.
- `RecoveryOwner.Owner.Attach`: whether the descriptor is a usable socket and whether the worker can be launched are arguments.
- `ScopedDrives.ScopedDrive.OnUpdate`: wheel speeds and radii are reals, so rounding is not modelled; odometry, logging, acknowledgements, update numbers and closure reasons are left out.
- `ComputeExecutionHosts.ComputeExecutionHost.Poll`: the worker path is kept but not handed to the process, whose launch is an answer of the system.
- `SampleExecutionHosts.SampleExecutionHost.Call`: the adapter's fields are kept as one record that its methods replace field by field.
- `RecoveryOwner.Owner.Poll`: session and work are kept as records that the methods replace field by field.
- `AuthorityGates.AuthorityGate.Create`: the fields of a receipt that only say whether a record is present are the presence of the record.
- Status and observation accessors that only copy fields out.
- Destructors, which kill and reap a child on the way out, and exceptions from allocation other than those the source turns into an error.
- POSIX signals, polling of descriptors and partial writes of a message: a message or frame is written whole or not at all, as packet sockets and 32-byte pipe writes guarantee (the framed channel has no such guarantee and is modelled byte by byte).
- ROS, Gazebo and CPython plumbing, the command-line programs, and the tests.
- The counters of the sample adapter are unbounded where the source uses a machine word.
