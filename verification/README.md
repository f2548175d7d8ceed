# Neko Core: verified models of its protocols, campaign and encoders

This project models the parts of the Neko Core repository where an error would be hard to see by reading
one function, and proves what they are for. It holds, by component:

- **Harbor remote tools.** `HarborHost` is the host's protocol object (phases, one active call, a bounded
  queue, a chain of writes), `HarborPeer` one pass of the peer's serve loop, `HarborMetrics` the checkpoint
  and final validators of both sides, `HarborMeter`, `HarborUsage` and `HarborSession` the metering that
  feeds them. `HarborOutcomes` and `HarborPeerRuns` say what each side does against an arbitrary partner,
  `HarborHistory` what the counters mean and `HarborValidity` what the validators accept.
  `HarborComposition` puts host, peer and the two pipes together as one state machine with every
  interleaving; `HarborDelivery` says what a whole run delivers and when it fails, `HarborAnswers` what
  the callers receive. `FrameCodec` is the length-prefixed wire format,
  `JsonBudget` the value walk with its shared budget, `Quiescence` the peer's process obligations and
  `ShieldedWait` how a cancelled waiter waits for them.
- **Relay.** `RelayJobs` routes jobs to hosts (offline queues, sockets, long polls, eviction, revocation),
  `RelayFates` says what becomes of each job, `RelayHosts` keeps the recency-limited host table,
  `RelayMirror` the replayable event log.
- **ProgramBench campaign.** `Campaign` is the counterbalanced schedule, `CampaignRun` the run loop with
  crashes and resumption, `CampaignSummary` the paired summary, `CampaignClaims` what its numbers are,
  `SignFlip` the permutation test.
- **Computer tool.** `ComputerTool` is the lease and operation-id client, `ComputerLog` what a disciplined
  exchange with its host is, `ComputerProgress` what each call asks for and how it ends.
- **Feedback and icons.** `Feedback` is the receipt table; `LinearRegister`, `Crc32`, `PngChunk`, `Raster`
  and `Ico` are the image writer.

Every component is a state machine on values, with a class where the code updates an object: its methods
are proved to take exactly the specified steps, given what the environment answers (in `CampaignRun`, up
to where the process is lost). The main results are lemmas about every run. `dafny verify dfyconfig.toml`
checks everything.

## Assumptions

- An honest Harbor run has no transport timeout, no failed write and no tool task that cancels itself or
  loses containment; `finish` is called after the last checkpoint was written (`evals/harbor/host_runner.ts:1676-1677`).
- The peer's final check demands that every requested tool call completed and that there was at least one
  provider call; the host's does not. `HarborSession.FinalReconcilesExactly` states the condition exactly,
  and `HarborComposition` lets a run finish only under it.
- Every count in a Harbor checkpoint stays within the safe integers (below 2^53), which both validators
  demand; a metering event that would take one beyond is not part of an honest run.
- A feedback submission stores its receipt at most six days less five minutes after it read the time;
  purges may be as late as they like. `Feedback.LongerLagEmailsTwice` shows that the bound is exact.
- Files are replaced atomically, and a revoked or closed socket never delivers again.
- Digests stand for the values they are taken of.

## Where the code does less than it promises

- A cancellation that the peer reads just as the cancelled tool ends in an ordinary error makes the peer
  fail with `cancel-failed`. `HarborDelivery.HonestRunsFailOnlyByCollision` proves that nothing else
  fails an honest run and that this always does; `HarborDelivery.RaceFails` is a run that gets there.
- The relay assumes that a closed socket is no longer listed (comments at `cloudflare/relay/worker.js:472`
  and `:495`). If it stays listed ahead of its successor, a later job can overtake a queued one:
  `RelayJobs.OrderLostByOvertaking` says when exactly that happens, `RelayJobs.ReceivedInOrder` when a
  host receives jobs out of order, `RelayJobs.LingeringSocketReorders` is a run.
- The host table sorts by time only, so the host just seen is forgotten when 32 hosts entered before it
  were seen in the same millisecond: `RelayHosts.SeenKeepsIfFewPreferred` is the condition,
  `RelayHosts.JustSeenIsForgotten` a table that meets it.
- The mascot's rows fit the canvas exactly if the content is no taller than the canvas, which holds for
  art no taller than wide: `Raster.RowsFitIfNotTaller`, `Raster.WideArtFits`. The shipped art is 192
  wide and 52 high, so it fits at every size; `Raster.TallArtFallsOff` is art that does not.

## Model

| member | source | states |
|---|---|---|
| HarborDelivery.HonestRunsFailOnlyByCollision | evals/harbor/remote_tools.py:2206-2382 | in every honest run of host, peer and both pipes, cancellations crossing results, errors and completions in any order, some side reaches a protocol error if and only if the peer read a cancellation of its active request as that tool ended in an error |
| HarborDelivery.FinishedMeansAccepted | evals/harbor/host_runner.ts:666-689 | once the host has finished and the pipe has drained, the peer has accepted and returned the very final metrics the host computed |
| HarborComposition.StepHealthy | evals/harbor/host_runner.ts:746-996 | every step of the composed system but that one collision keeps the link invariant: the control frames in flight are exactly those owed to the peer, at most one answer is in flight, and every checkpoint in the stream will be accepted |
| HarborAnswers.ObservationsReachTheirCall | evals/harbor/host_runner.ts:810-880 | over every honest run without the collision, a requested call ends with exactly what the tool run for it returned or raised, or as interrupted if the peer cancelled it; a call that was never sent can only have been interrupted or refused for its context |
| HarborAnswers.AnswersAreDelivered | evals/harbor/host_runner.ts:810-856 | a request the peer has answered is settled as it is due as soon as the pipe to the host is empty |
| HarborAnswers.UndisturbedCallsAreAnswered | evals/harbor/remote_tools.py:2354-2382 | a request for which no abort and no deadline arrived ends with what its tool returned or raised |
| HarborAnswers.HostRunsAlong | evals/harbor/host_runner.ts:596-1047 | the host of a composed run is a host run on its own events, so what holds of every host holds in the composition |
| HarborDelivery.PeerIsUpToDate | evals/harbor/host_runner.ts:646-664 | when nothing is in flight, the peer's last checkpoint holds every count of the session as it is; only the clock and the tool called last may have moved on |
| HarborOutcomes.OutcomesAreEarned | evals/harbor/host_runner.ts:707-744 | whatever the peer sends: the calls accepted are exactly the well-formed ones made in a running session with fewer than 64 unsettled, numbered in order; a call whose request was sent ends by the matching answer, and as interrupted only if it was cancelled; one never sent ends by its abort or its context; and no admissible call is passed over |
| HarborOutcomes.AnswersSettle | evals/harbor/host_runner.ts:783-856 | a frame leaves a running session running exactly if it answers the active call, and then settles that call as it says; any other frame fails the session |
| HarborOutcomes.AbortsTakeEffect | evals/harbor/host_runner.ts:937-955 | an abort cancels the active call with one cancel frame, or settles a queued call and takes it out of the queue; a deadline cancels the active call only |
| HarborOutcomes.CheckpointsJoin | evals/harbor/host_runner.ts:646-664 | after any run, a checkpoint joins the write chain if and only if the session is running and the checkpoint valid; otherwise nothing changes |
| HarborOutcomes.FinishBegins | evals/harbor/host_runner.ts:666-671 | after any run, final metrics join the chain and end the running phase if and only if they are valid, the session is running and no call is open; otherwise nothing changes |
| HarborOutcomes.WritesTakeTurns | evals/harbor/host_runner.ts:981-997 | frames are written in the order of the chain while the phase each needs still holds, a write whose phase has passed fails the session, and the session is finished once its final frame is written and the input closed |
| HarborDelivery.EveryCheckpointIsAccepted | evals/harbor/remote_tools.py:1829-2030 | every checkpoint the peer reads passes its validation: no counter falls below the last one and requested is not below the requests served |
| HarborDelivery.RaceFails | evals/harbor/remote_tools.py:2354-2370 | a concrete honest run that ends in the protocol error of the collision |
| HarborHost.SettledExactlyOnce | evals/harbor/host_runner.ts:957-979 | over any run, whatever the peer sends, an accepted call is pending once or settled once, never both, and no other id is settled |
| HarborHost.RequestsInEnqueueOrder | evals/harbor/host_runner.ts:707-744 | requests go out with strictly increasing, hence fresh, ids in enqueue order, and active plus queued calls never exceed 64 |
| HarborHost.FailureAbsorbs | evals/harbor/host_runner.ts:999-1047 | once a run has failed it stays failed: no call is pending, none is accepted, settled or sent again |
| HarborHost.HostStepKeeps | evals/harbor/host_runner.ts:707-996 | every operation keeps the host's invariant on order, bounds, the active call and the phase |
| HarborHost.HarborHostProtocol.EnqueueCall | evals/harbor/host_runner.ts:707-744 | the enqueue method takes exactly the specified step, refusals included |
| HarborHost.HarborHostProtocol.PumpQueue | evals/harbor/host_runner.ts:858-880 | the pump loop activates the first admissible call and settles the ones it skips |
| HarborHost.HarborHostProtocol.AbortCall | evals/harbor/host_runner.ts:937-955 | aborting cancels the active call once, or removes a queued one and settles it |
| HarborHost.HarborHostProtocol.ReceiveFrame | evals/harbor/host_runner.ts:783-856 | the receiver settles on a matching answer and fails the session on anything late, duplicate or out of phase |
| HarborHost.HarborHostProtocol.FailWith | evals/harbor/host_runner.ts:999-1047 | failing settles the active and every queued call |
| HarborHost.HarborHostProtocol.EmitCheckpoint | evals/harbor/host_runner.ts:646-664 | a valid checkpoint joins the write chain while running, anything else is refused |
| HarborHost.HarborHostProtocol.BeginFinish | evals/harbor/host_runner.ts:666-689 | finishing starts only in a running session without pending calls and with valid final metrics |
| HarborPeer.ServeLoop.Iterate | evals/harbor/remote_tools.py:2206-2382 | one pass of the serve loop takes the specified turn: it settles an ended tool, or takes one frame with the late-cancel memory and the served and settled counters |
| HarborPeerRuns.AcceptsExactlyTheLegal | evals/harbor/remote_tools.py:2206-2382 | against any host: a frame is accepted if and only if the frames taken and answers written so far allow it (a new id when nothing is open, one cancellation of the last request, a checkpoint that goes on from the last one, a reconciling final when nothing is open), apart from a cancelled tool that fails |
| HarborPeerRuns.RequestsAreServedInOrder | evals/harbor/remote_tools.py:2206-2382 | against any host: no id is served twice, at most one request is open, and the answers name the requests in order, each once, and say how their tools ended |
| HarborMetrics.CheckpointValidatorsAgree | evals/harbor/host_runner.ts:449-504 | a checkpoint valid for the host is consistent for the peer exactly when requested is not below the requests served |
| HarborMetrics.FinalValidatorsDiffer | evals/harbor/host_runner.ts:387-447 | exactly where the peer's final validation is stricter than the host's |
| HarborValidity.CheckpointsAreReportable | evals/harbor/host_runner.ts:449-504 | a checkpoint is valid if and only if its counts are exact and some session with measured usage and balanced tool counts reports it |
| HarborValidity.FinalsAreReportable | evals/harbor/host_runner.ts:387-447 | the same for final metrics |
| HarborMeter.MeterConservation | evals/harbor/host_runner.ts:1087-1129 | requested plus matched equals agent events plus backend calls, and no key is pending on both sides |
| HarborMeter.RequestedIsTheLargerCount | evals/harbor/host_runner.ts:1087-1129 | over every history a key is requested exactly as often as the larger of its agent calls and its backend calls plus discarded reservations, and what is pending is the difference |
| HarborMeter.HarborToolCallMeter.OnAgentResult | evals/harbor/host_runner.ts:1108-1115 | a result removes its own call from the waiting list of its key, and nothing else |
| HarborUsage.TotalsAreConsistent | src/core/cost.ts:115-140 | the summed usage is normal, and every recorded usage stands for at least one model call |
| HarborUsage.UsageTotals | evals/harbor/host_runner.ts:1393-1397 | the totals loop sums the observed slots |
| HarborSession.AdvanceKeeps | evals/harbor/host_runner.ts:1378-1582 | every metering event keeps the session's books sound and moves the counters only forward |
| HarborSession.SnapshotIsValid | evals/harbor/host_runner.ts:1398-1413 | every snapshot of a sound session is a checkpoint the host validates |
| HarborSession.FinalReconcilesExactly | evals/harbor/remote_tools.py:2129-2168 | the final metrics of a sound session reconcile with its last snapshot if and only if all requested calls completed and there was a provider call |
| HarborHistory.CountersTellTheHistory | evals/harbor/host_runner.ts:1378-1582 | over every history each counter is what it is named for: results by verdict, artifacts, provider calls, ticks and step limits are counted, and phase, validation, tool state, last tool and mutation epoch are the latest reported |
| HarborHistory.UsageIsTheLatestReport | evals/harbor/host_runner.ts:1414-1434 | a provider call's usage is what its last complete report measures |
| HarborSession.SessionMeter.OnAgentToolCall | evals/harbor/host_runner.ts:1520-1533 | the session's handler counts a tool call exactly as specified |
| HarborSession.SessionMeter.OnAgentToolResult | evals/harbor/host_runner.ts:1568-1580 | a tool result is counted under its verdict and closes its tool, exactly as specified |
| HarborSession.SessionMeter.RecordUsage | evals/harbor/host_runner.ts:1414-1434 | a usage report is kept, ignored as unchanged or refused as a regression |
| HarborSession.SessionMeter.PartialMetrics | evals/harbor/host_runner.ts:1398-1413 | the loops over the usage slots compute the specified checkpoint |
| FrameCodec.ReadLoop | evals/harbor/host_runner.ts:746-781 | for every split of every byte stream the incremental reader takes the frames and ends as the concatenation says, and never reaches the overflow branch |
| FrameCodec.TakeFrames | evals/harbor/host_runner.ts:753-775 | the inner loop takes the whole frames off the buffer without changing what the remaining bytes will mean |
| FrameCodec.EncodeHarborFrame | evals/harbor/host_runner.ts:571-581 | encoding succeeds exactly for 1 to 1048576 bytes and yields the frame with its length in front |
| FrameCodec.WireRoundTrip | evals/harbor/host_runner.ts:571-581 | decoding the encoding of any frame list gives that list and a clean end |
| FrameCodec.TakenIsWhatWasSent | evals/harbor/host_runner.ts:746-781 | the bytes begin with the encoding of exactly the frames taken, and the rest explains how reading ended |
| FrameCodec.ReadFrame | evals/harbor/remote_tools.py:292-317 | the peer's exact read with its error cases: end of stream, size, payload cut short or no JSON, JSON that is no object |
| FrameCodec.PeerReadsWire | evals/harbor/remote_tools.py:292-326 | the peer reads back what was written if and only if every payload is a JSON object of more than one byte |
| FrameCodec.ReadersAgree | evals/harbor/remote_tools.py:292-317 | from the same bytes the host takes all frames the peer takes, in order; when the peer stops because the stream ran dry, the host stops at the same frame for the same reason |
| JsonBudget.ValidJsonValue | evals/harbor/host_runner.ts:259-268 | the short-circuit walk accepts exactly the well-formed values that nest within the limit and fit the remaining budget, spends exactly the node count, and on refusal visits at most one node beyond the budget |
| JsonBudget.AdmittedExactly | evals/harbor/host_runner.ts:259-268 | a value is admitted if and only if it has at most 20000 nodes, nothing in it lies deeper than 32 levels, and every part is a JSON value, finite if a number, of at most 10000 entries with keys of at most 1024 bytes |
| JsonBudget.EveryPartIsLimited | evals/harbor/host_runner.ts:259-268 | in an admitted value every part, however deep, respects the limits and lies within 32 levels |
| ShieldedWait.WaiterOutlastsTask | evals/harbor/remote_tools.py:1707-1722 | in every interleaving of the shielded task, the cancellations and the waiter, the waiter leaves only after the task ended; a fault of the task is raised whatever happened, and otherwise it leaves as cancelled if and only if a cancellation arrived, unless it holds cancellations off |
| ShieldedWait.EndedTaskFreesWaiter | evals/harbor/remote_tools.py:1716-1722 | once the task has ended the waiter leaves within two turns unless it is cancelled anew |
| Quiescence.RemoteToolDispatcher.AwaitStop | evals/harbor/remote_tools.py:914-934 | the waiter's loop around the shielded stop request ends, in any interleaving with cancellations, only after the request did, and confirms exactly its success |
| Quiescence.RemoteToolDispatcher.CompleteQuiescenceObligation | evals/harbor/remote_tools.py:1707-1722 | with cleanup steps, cancellations and the waiter's turns in any order: the scans alone decide between the token quiesced and the task given up; giving up raises a protocol error whatever else happened, and otherwise it is cancelled if and only if a cancellation arrived |
| Quiescence.RemoteToolDispatcher.EnsureQuiescent | evals/harbor/remote_tools.py:1724-1749 | the first scan that attests ends the cleanup; the task is given up for three failed scans or a changed profile and for nothing else |
| Quiescence.RemoteToolDispatcher.AbortTask | evals/harbor/remote_tools.py:908-939 | the dispatcher is closed and its tokens dropped, and destruction counts as confirmed exactly if the stop request succeeded |
| Quiescence.RemoteToolDispatcher.Execute | evals/harbor/remote_tools.py:724-756 | the commands run in order until one ends the call, whose exit is that one's; unless it is a protocol error every token the call opened is quiesced and removed, and otherwise the bridge is closed and the task was aborted, or nothing is left open |
| Quiescence.RemoteToolDispatcher.Close | evals/harbor/remote_tools.py:686-722 | closing returns normally only with everything quiesced or the task destroyed, and does so if every first scan attests and the state is removed |
| Quiescence.RemoteToolDispatcher.RawExec | evals/harbor/remote_tools.py:860-906 | how one command ends for every reply of the environment, and that only a changed profile destroys the task |
| Quiescence.RemoteToolDispatcher.Contained | evals/harbor/remote_tools.py:836-858 | a command's exit is that of its process list, its cleanup, its cancellation or its body, in that order of precedence, and its token is quiesced or the task given up |
| Quiescence.VerdictMeans | evals/harbor/remote_tools.py:1731-1749 | a cleanup succeeds if and only if some scan attests and every earlier one was undecided |
| Quiescence.ReturnsExactlyIfClean | evals/harbor/remote_tools.py:836-858 | a contained command returns normally if and only if the process list was taken, its body did what it should, its cleanup succeeded and nobody cancelled it |
| Quiescence.SessionsLeakNothing | evals/harbor/remote_tools.py:686-756 | over every session no observation is returned while an obligation is open, and after an abort no command is ever started |
| RelayJobs.JobsAreConserved | cloudflare/relay/worker.js:340-362 | over every run an accepted job is delivered once, queued once, or dropped once by eviction or revocation, and no other job is anywhere |
| RelayJobs.QueuesAreSound | cloudflare/relay/worker.js:413-430 | no long poll waits while its host's queue holds a job; queues are bounded by 100 and in order; the table holds at most 32 hosts |
| RelayJobs.OrderLostByOvertaking | cloudflare/relay/worker.js:340-362 | delivered and queued jobs of a host, taken together, stay in numerical order at every point of a run if and only if no job is sent directly while older ones are queued (an overtaken job dropped later still breaks this order) |
| RelayJobs.ReceivedInOrder | cloudflare/relay/worker.js:340-362 | what a host receives over a run is in numerical order if and only if it is never handed a queued job that was overtaken |
| RelayJobs.DeliveryIsInOrder | cloudflare/relay/worker.js:266-275 | with closed sockets gone from the list, every host receives strictly increasing job numbers in every run |
| RelayJobs.LingeringSocketReorders | cloudflare/relay/worker.js:268-274 | a run with a lingering closed socket that delivers job 2 before job 1 |
| RelayFates.StepMoves | cloudflare/relay/worker.js:201-430 | in every reachable state, what one event does to the jobs of one host: where a sent job goes, what a poll and a reconnect take, and that only revocation and forgetting the host drop queued jobs, all of them |
| RelayFates.StepReaches | cloudflare/relay/worker.js:258-277 | in every reachable state, which polls wait and which sockets are listed and live after one event |
| RelayFates.AcceptedUnlessFull | cloudflare/relay/worker.js:340-362 | a job is accepted if and only if a live socket or a poll takes it or fewer than 100 jobs are queued |
| RelayFates.NumbersCountSends | cloudflare/relay/worker.js:343-345 | a job's number counts the sends since the last revocation |
| RelayFates.RevocationCutsOff | cloudflare/relay/worker.js:300-306 | after a revocation every queue and the table are empty and every socket is dead, and in no run is a job accepted before it delivered after it |
| RelayJobs.StepKeeps | cloudflare/relay/worker.js:201-430 | every handler keeps conservation, queue bounds, poll exclusion and order of numbers |
| RelayJobs.RelaySession.HandleSend | cloudflare/relay/worker.js:340-362 | a job goes to the first socket, else to a poll, else to the queue, else it is refused |
| RelayJobs.RelaySession.HandlePull | cloudflare/relay/worker.js:413-430 | a poll takes the oldest queued job or waits |
| RelayJobs.RelaySession.HandleConnect | cloudflare/relay/worker.js:258-277 | a reconnect replaces the sockets, touches the host and flushes its queue |
| RelayJobs.RelaySession.FlushQueueTo | cloudflare/relay/worker.js:524-533 | what is sent is a prefix of the queue and the rest stays queued in order |
| RelayJobs.RelaySession.TouchHost | cloudflare/relay/worker.js:201-214 | the table is refreshed and trimmed, and exactly the forgotten hosts lose their queues |
| RelayJobs.RelaySession.HandleRevoke | cloudflare/relay/worker.js:300-306 | revoking takes the specified step; that it drops every queue and closes every socket is RelayFates.RevocationCutsOff |
| RelayHosts.SeenStaysSmall | cloudflare/relay/worker.js:201-211 | at most 32 hosts stay, each once |
| RelayHosts.SeenKeepsTheNewest | cloudflare/relay/worker.js:206-209 | a host forgotten was seen no later than any host kept, and nobody is forgotten while there is room |
| RelayHosts.SeenKeepsIfFewPreferred | cloudflare/relay/worker.js:206-209 | a host survives the trim if and only if fewer than 32 entries are newer, or equal and earlier in the table |
| RelayHosts.JustSeenIsForgotten | cloudflare/relay/worker.js:206-209 | of 33 new hosts seen in one millisecond the last, the one just seen, is forgotten |
| RelayMirror.BrowsersFollowTheLog | cloudflare/relay/worker.js:456-497 | for every connected browser the durable frames since its last reset are numbered consecutively up to the stored counter, and the retained log is a suffix of them within both limits |
| RelayMirror.BrowsersAgree | cloudflare/relay/worker.js:280-296 | of two connected browsers one holds the end of what the other holds |
| RelayMirror.LogKeepsTheMost | cloudflare/relay/worker.js:479-490 | over every run the retained log is the longest end of the durable frames since the last reset that has at most 400 entries and 1500000 characters |
| RelayMirror.EveryBrowserHears | cloudflare/relay/worker.js:456-497 | every event of the host, durable or live, reaches every live browser, after a reset if the host begins anew |
| RelayMirror.ConnectingReplays | cloudflare/relay/worker.js:280-296 | a browser that connects receives a reset, exactly the retained log and the newest number |
| RelayMirror.RevokingForgets | cloudflare/relay/worker.js:300-306 | a revocation leaves no log, no number and no live browser |
| RelayMirror.TrimKeepsTheMost | cloudflare/relay/worker.js:486-486 | the trim loop keeps the longest suffix within the entry and the size limit |
| RelayMirror.MirrorStore.StoreMirrorEvent | cloudflare/relay/worker.js:479-490 | an event gets the next number, is appended, and the log is trimmed |
| RelayMirror.MirrorStore.HandleHostEvent | cloudflare/relay/worker.js:456-465 | reset, store and broadcast happen in the specified order |
| RelayMirror.MirrorStore.HandleClientConnects | cloudflare/relay/worker.js:280-296 | a new browser gets a reset, the retained log and the newest number |
| SignFlip.ExactOneSidedPairedPValue | scripts/programbench-campaign.ts:315-328 | the mask loop returns the share of all sign assignments whose mean reaches the observed one, and nothing for no pairs or more than 20 |
| SignFlip.MasksCoverSigns | scripts/programbench-campaign.ts:319-325 | masks below 2^n stand for the sign assignments one to one |
| SignFlip.PValueRange | scripts/programbench-campaign.ts:315-328 | a p-value exists exactly for 1 to 20 pairs, lies in [2^-n, 1], and is 2^-n when all differences are positive and there is no tolerance |
| SignFlip.PValuePermutes | scripts/programbench-campaign.ts:315-328 | the p-value does not depend on the order of the pairs |
| SignFlip.TestHoldsItsLevel | scripts/programbench-campaign.ts:315-328 | the test is exact: of all sign flips of any differences, at most a share alpha is rejected at level alpha |
| Campaign.BuildProgramBenchCampaignCells | scripts/programbench-campaign.ts:476-512 | the nested loops build the schedule |
| Campaign.ScheduleIsComplete | scripts/programbench-campaign.ts:476-512 | every combination of task, profile and replicate of the options has its block, every block is of such a combination, keys never repeat, and each block holds each controller once |
| Campaign.EveryControllerLeads | scripts/programbench-campaign.ts:487-492 | among as many consecutive replicates as there are controllers each controller runs first once |
| Campaign.BlocksRotate | scripts/programbench-campaign.ts:487-492 | the controllers of a block run in the order of the options taken cyclically, beginning one further with each task, profile and replicate |
| Campaign.EveryControllerLeadsATask | scripts/programbench-campaign.ts:487-492 | among as many consecutive tasks as there are controllers each controller runs first once |
| Campaign.EveryControllerLeadsAProfile | scripts/programbench-campaign.ts:487-492 | the same among consecutive profiles |
| Campaign.CellAt | scripts/programbench-campaign.ts:482-510 | the schedule in closed form: the cell at every place, tasks outermost, then profiles, replicates and rotated controllers |
| CampaignClaims.ModeFigures | scripts/programbench-campaign.ts:335-353 | for any manifest, a controller's cells are counted and each mean is the sum over its valid cells that report the measure, divided by their number, withheld unless all its cells are valid |
| CampaignClaims.DifferencesAre | scripts/programbench-campaign.ts:355-380 | for any manifest, the differences tested are one for each combination whose last single and last contract cell are both scored, the contract score less the single score; their number, mean and sign-flip p-value are those reported |
| CampaignClaims.ClaimsAreExactly | scripts/programbench-campaign.ts:381-394 | an improvement is supported if and only if it is eligible, the mean difference is positive, the p-value is at most 0.05 and the contract artifact rate is not below the single one; and what complete, valid and eligible are |
| CampaignSummary.PairedMeansAreDifferences | scripts/programbench-campaign.ts:330-413 | in an evaluated, infrastructure-valid campaign with both controllers every combination is a pair, and the mean paired delta is the contract mean minus the single mean: for scores and artifacts always, for provider calls and tokens if every run reports them |
| CampaignSummary.EligibleHasRates | scripts/programbench-campaign.ts:384-394 | eligibility implies that both artifact rates exist |
| CampaignSummary.SupportNeedsNineToTwentyPairs | scripts/programbench-campaign.ts:386-394 | a supported improvement rests on 9 to 20 pairs |
| CampaignSummary.WhatClaimsMean | scripts/programbench-campaign.ts:381-394 | for a scheduled campaign eligibility is exactly completeness, validity, evaluation, the minimum sizes and both controllers; support implies a higher mean score at no lower artifact rate |
| CampaignSummary.PairCells | scripts/programbench-campaign.ts:356-363 | the pair map is filled in order of first appearance, later cells replacing earlier ones |
| CampaignSummary.SummarizeProgramBenchCampaign | scripts/programbench-campaign.ts:330-413 | the summary computed is the specified one, with every rate, mean and paired delta, its p-value that of the sign-flip test |
| CampaignRun.ResumeCells | scripts/programbench-campaign.ts:549-578 | resuming accepts exactly manifests that match the schedule with consistent statuses, and turns running cells into interrupted ones in place |
| CampaignRun.RecordedIsAcceptable | scripts/programbench-campaign.ts:641-654 | a cell is completed exactly if its child exited with zero and left a complete result, and failed with its code or 1 otherwise; the record is acceptable to resuming if and only if the child kept its result contract |
| CampaignRun.CampaignProcess.Run | scripts/programbench-campaign.ts:587-665 | one process, crashing anywhere or not: when it is refused, which cells it may launch, what it may leave on disk, and, if it ends of itself, the swept cells, the finish mark and the exit code |
| CampaignRun.CampaignProcess.RunPending | scripts/programbench-campaign.ts:613-659 | the loop launches pending cells in ascending order, leaves every cell acceptable to resuming at each persist, and, unless it dies, has made exactly one sweep |
| CampaignRun.SweepStops | scripts/programbench-campaign.ts:613-658 | a sweep runs and records every pending cell up to the first that ran on invalid infrastructure, and every cell behind that one keeps its state |
| CampaignRun.CellRanMay | scripts/programbench-campaign.ts:614-654 | whatever became of one launched cell, crashed or recorded, the manifest stays acceptable to resuming and the other cells unchanged |
| CampaignRun.CampaignProcess.RunCell | scripts/programbench-campaign.ts:616-654 | a cell is marked running and persisted before its child is launched, and recorded after |
| CampaignRun.LaunchedAtMostOnce | scripts/programbench-campaign.ts:611-663 | over any sequence of crashes and resumptions no cell is launched twice |
| CampaignRun.SettledCellsStay | scripts/programbench-campaign.ts:611-663 | finished and interrupted cells never change, and one left running can only become interrupted |
| CampaignRun.InterruptedNeverCounts | scripts/programbench-campaign.ts:573-577 | an interrupted cell is never re-run and its campaign never counts as complete |
| CampaignRun.EveryManifestIsAccepted | scripts/programbench-campaign.ts:533-585 | every manifest at the end of a history of processes is one that resuming accepts; that each process keeps this is CellRanMay, RunPending and Run |
| ComputerTool.EveryRunIsSound | src/adapters/acp-computer.ts:436-698 | whatever is called and whatever the host answers, the exchanges are disciplined, lease and due release are what the log says, a held lease has a release due and no open acquisition, an open release id means a release is due, and a snapshot is the latest one and free of human checks |
| ComputerTool.EverySessionIsSound | src/adapters/acp-computer.ts:355-376 | the same for every session from its start |
| ComputerTool.ActStepKeeps | src/adapters/acp-computer.ts:583-673 | an act is sent only right after a status with an available seat under agent control, on an unprotected node of the latest snapshot with exact reference, role, name and action |
| ComputerTool.AcquireStepKeeps | src/adapters/acp-computer.ts:531-555 | an acquisition is sent only after an observation and a status without agent control, under its open id or a fresh one |
| ComputerTool.ReleaseKeeps | src/adapters/acp-computer.ts:680-698 | a release keeps its open id until it is confirmed |
| ComputerTool.ClosedToolOnlyReleases | src/adapters/acp-computer.ts:436-460 | after closing nothing but releases is asked of the host |
| ComputerLog.SameIdSameWire | src/adapters/acp-computer.ts:615-618 | in a disciplined log two acts with one id carry the same request |
| ComputerLog.RetryReusesId | src/adapters/acp-computer.ts:616-671 | the same request after an act of unknown outcome goes out under the same id |
| ComputerLog.AcquireKeepsId | src/adapters/acp-computer.ts:537-554 | an acquisition of unknown outcome is repeated under its id |
| ComputerLog.ReleaseKeepsId | src/adapters/acp-computer.ts:686-697 | an unconfirmed release is repeated under its id |
| ComputerProgress.ActAsks | src/adapters/acp-computer.ts:583-673 | an act is sent if and only if lease and snapshot are held, the status just read shows control, and the target is in the snapshot as named, unprotected, with a text if one is set; it is the second request, names that snapshot, and its answer decides the outcome |
| ComputerProgress.ActNeedsControl | src/adapters/acp-computer.ts:583-593 | without lease, snapshot or target nothing is asked; out of control the tool gives back what it owes |
| ComputerProgress.ActNeedsTarget | src/adapters/acp-computer.ts:594-614 | in control, a target not as named makes the tool look again, a protected one makes it let go, a missing text is refused |
| ComputerProgress.RefreshAsks | src/adapters/acp-computer.ts:564-581 | after a stale target a status is asked for, and a snapshot exactly if it shows control |
| ComputerProgress.StatusAsks | src/adapters/acp-computer.ts:490-511 | one status request, and a release exactly if the seat is not free and one is due; ready exactly if the seat is free |
| ComputerProgress.ObserveAsks | src/adapters/acp-computer.ts:513-529 | a snapshot is asked for exactly if the seat is free and the arguments are valid, and kept exactly if it shows no human check |
| ComputerProgress.AcquireAsks | src/adapters/acp-computer.ts:531-555 | the seat is asked for exactly if there is a snapshot and the seat is free and not yet held; acquired exactly if not refused or already held |
| ComputerProgress.ReleaseAsks | src/adapters/acp-computer.ts:675-698 | a release goes out exactly if one is due and succeeds exactly if none is or the host confirms |
| ComputerTool.WiiiComputerTool.ReadStatus | src/adapters/acp-computer.ts:472-488 | a status updates lease, due release, open acquisition and snapshot as specified |
| ComputerTool.WiiiComputerTool.Act | src/adapters/acp-computer.ts:583-673 | the act method takes the specified step with its status, target and answer checks |
| ComputerTool.WiiiComputerTool.ReleaseControl | src/adapters/acp-computer.ts:680-698 | releasing forgets snapshot, acquisition and unknown act, and sends nothing when no release is due |
| ComputerTool.WiiiComputerTool.Call | src/adapters/acp-computer.ts:436-450 | a call is dispatched to its step, and refused without effect once the session is closed |
| ComputerTool.WiiiComputerTool.Close | src/adapters/acp-computer.ts:456-460 | closing releases once and closes |
| Crc32.ComputeCrc32 | scripts/make-icon.ts:47-51 | the table loop computes the bit-by-bit polynomial definition for every input |
| Crc32.MakeCrcTable | scripts/make-icon.ts:42-46 | entry n of the table is what eight polynomial shifts make of n |
| Crc32.CheckOfTheEnd | scripts/make-icon.ts:42-51 | the check of the letters IEND, with which every PNG file ends, is 0xae426082 |
| Crc32.BurstIsDetected | scripts/make-icon.ts:47-51 | two messages whose bits differ only within 32 consecutive ones have different checks |
| Crc32.OneByteIsDetected | scripts/make-icon.ts:47-51 | two messages of equal length that differ in exactly one byte have different checks |
| PngChunk.MakeChunk | scripts/make-icon.ts:52-60 | the chunk buffer holds length, type, data and check |
| PngChunk.ChunkByteByByte | scripts/make-icon.ts:52-60 | a chunk byte by byte: length and check are most significant byte first, type and data lie between them as they are |
| PngChunk.ChunksRoundTrip | scripts/make-icon.ts:52-60 | any chunks written one after the other are read back exactly |
| PngChunk.CorruptionIsRefused | scripts/make-icon.ts:47-60 | a chunk whose type and data were changed within 32 consecutive bits is refused by a reader |
| PngChunk.OneByteCorruptionIsRefused | scripts/make-icon.ts:47-60 | a chunk with one byte of its type or data changed is refused |
| PngChunk.CheckCorruptionIsRefused | scripts/make-icon.ts:58-58 | a chunk with any change in its check is refused |
| Raster.WindowInside | scripts/make-icon.ts:29-31 | sampling windows are non-empty, stay inside the art, and the last one reaches its end |
| Raster.EveryCellSampled | scripts/make-icon.ts:29-31 | the windows cover every cell of the art, shrinking or enlarging |
| Raster.ShrinkingPartitions | scripts/make-icon.ts:29-31 | when shrinking no cell is sampled twice |
| Raster.WindowsAreEven | scripts/make-icon.ts:28-30 | a window starts in the cell its pixel's share of the art starts in, and when shrinking every window is as wide as that share to within one cell |
| Raster.AspectIsKept | scripts/make-icon.ts:25-25 | the content is as high as keeps the aspect of the art, to the nearest whole number and at least 1 |
| Raster.BoxIsCentred | scripts/make-icon.ts:24-26 | the content is 0.875 of the canvas wide, to the nearest whole number, and its opposite margins differ by one at most |
| Raster.CoveredIsShare | scripts/make-icon.ts:32-33 | a pixel is lit if and only if at least the share 0.18 of the cells in its window is glyph |
| Raster.RowsFitIfNotTaller | scripts/make-icon.ts:25-35 | all pixel rows are on the canvas if and only if the content is no taller than the canvas |
| Raster.TallArtFallsOff | scripts/make-icon.ts:25-35 | art of one column and two rows has content 28 rows high at size 16, with its first and last row off the canvas |
| Raster.WideArtFits | scripts/make-icon.ts:25-27 | art no taller than wide always fits |
| Raster.Render | scripts/make-icon.ts:23-40 | the canvas shows exactly the pixels whose window is covered by at least 18 percent, each at its place |
| Ico.WriteIco | scripts/make-icon.ts:79-102 | the file is the directory followed by the images |
| Ico.DirectoryReadsBack | scripts/make-icon.ts:81-96 | every directory entry reads back as its image's side, depth, length and offset, and leads to exactly its bytes |
| Ico.EntryByteByByte | scripts/make-icon.ts:86-95 | an entry byte by byte: side twice with 256 as 0, one plane, 32 bits, then length and offset, least significant byte first |
| Ico.FileStart | scripts/make-icon.ts:80-84 | the file announces an icon with the number of its images, and ends where the last image does |
| Ico.ImagesLieBackToBack | scripts/make-icon.ts:86-102 | images lie back to back from the directory to the end of the file |
| Feedback.EmailedAtMostOnce | cloudflare/feedback/worker.ts:10-20 | over any run of submissions, deliveries and purges an identical report is emailed at most once, overlapping submissions taking effect in any order within the lag bound |
| Feedback.LongerLagEmailsTwice | cloudflare/feedback/worker.ts:71-88 | for any longer lag a run that emails a report twice, so the bound is exact |
| Feedback.AcceptanceIsLimited | cloudflare/feedback/worker.ts:10-20 | no day accepts more than 100 reports, nor more than 10 from one address, in any order of submissions, purges and deliveries within the lag bound |
| Feedback.AcceptedUpToTheLimits | cloudflare/feedback/worker.ts:10-20 | the exact reply to a submission when no later handler has taken effect: a new fresh report is accepted unless 100 were accepted on the day or 10 from its address |
| Feedback.StepKeeps | cloudflare/feedback/worker.ts:39-88 | every submission within the lag bound, every delivery and every purge keeps receipts on file for seven days and every accepted report on its way to one email |
| Feedback.FeedbackWorker.ReserveReceipt | cloudflare/feedback/worker.ts:10-20 | a receipt is inserted exactly if its id is free and both limits allow it; otherwise the reply tells a known state, a conflict or the limit |
| Feedback.FeedbackWorker.HandleSubmission | cloudflare/feedback/worker.ts:71-82 | a submission outside the age window is refused before anything is stored, and a new one is scheduled for delivery once |
| Feedback.FeedbackWorker.DeliverReport | cloudflare/feedback/worker.ts:39-45 | a delivery tries its email once and then updates the receipt if it is still there |
| Feedback.FeedbackWorker.Scheduled | cloudflare/feedback/worker.ts:86-88 | a purge removes exactly the receipts older than seven days |

## Left out

- Transports, timers, abort controllers, process spawning, shell scripts and file hashing: their outcomes are arguments or arbitrary choices.
- JSON text, UTF-8, SHA-256, HMAC and zlib: values and sizes stand for them; a malformed or structurally wrong frame is one `Garbled` frame.
- Harbor request arguments and observations: a request carries its id, an answer its id and text; credential patterns, path probes and shell commands are not modelled.
- `pump`'s look at a call's abort signal and context is an `Admission` chosen when the call is made.
- HarborUsage: token counts are integers; fractional counts are not modelled.
- HarborPeer: request ids are numbers, so the pattern of an id is not checked.
- FrameCodec.ReadLoop: a session that turns terminal or starts finishing for another reason while the loop waits for a chunk is not modelled.
- Quiescence: what a command prints and the deadline arithmetic are not modelled; the environment's reply to each command is an argument, and a stop request within one call ends the same way each time. Cancellation of the shielded cleanup task itself, which only closing the event loop causes, is not modelled.
- RelayJobs: request bodies, tokens, the result ring, control, voice and frame forwarding, and the legacy queue key of the default host; the host a request resolves to is an argument. The table enumerates hosts in the order they were entered, which JavaScript does for ids that do not look like integers.
- RelayMirror: one host's mirror; the keys and sockets of different hosts are disjoint.
- SignFlip.ExactOneSidedPairedPValue: does not model floating-point rounding; arithmetic is exact and the tolerance is an argument.
- CampaignRun: timestamps, provenance contents and command-line parsing; provenance is equal or not. Two processes at once are not modelled.
- ComputerTool: the status manifest, the texts shown to the model, and the patterns for secrets, human checks and protected inputs, which are attributes of a node. Nothing is claimed about repeating an interrupted act or about the clean-up id being used once.
- Raster: the rounding of sizes is exact; the filter byte of each row and the compression are not modelled.
- PngChunk.CorruptionIsRefused: says nothing of a changed length field, which the format's check does not cover, nor of a burst that spans the data and the check, whose byte orders differ.
- PngChunk: chunks are read, not the image they hold.
- Feedback: request parsing, the ingress limiter and the status query; a database error is a request that did not happen.
- The backend that reserves time for finalization (`evals/harbor/host_runner.ts:1150-1193`): two comparisons with a deadline.
- The browser extension, the user interface, build and packaging scripts: dispatch, I/O and rendering.
