# Verified model of the control core

The repository simulates a quantum-control processor: in every core a RISC-V processor issues timed operations to a
timing control unit (TCU), units synchronize neighboring cores, a decoder service answers measurement windows, and the
control electronics turn launched events into physical actions and backend calls. Each component is a class stepped once
per clock edge, and every illegal situation is an explicit guard that ends the run with an error code.

The model follows that structure. For each component there is

- a *specification*: the state as a datatype and one function for each operation, with the guards in the source's order; a
  guard that fires is `Err(code)`;
- where the source changes objects in place, a *class* (or loops) whose methods are proved to compute exactly these
  functions on their fields;
- *runs*: sequences of operations with a history, an invariant kept by every operation, and the theorems about every
  reachable state.

| part | files |
|---|---|
| arithmetic of ticks, receiver clocks, mailboxes | `Errors`, `Time`, `Mailbox` |
| requests, events and their validation; execution flags | `Protocol` |
| neighbor synchronization | `Sync` (functions and classes), `SyncOrder`, `SyncPair`, `SyncRuns` |
| timing control unit | `Tcu`, `TcuModel` (class), `TcuQueues`, `TcuRuns`, `TcuFindings` |
| timing control, its link to the TCU, launch times | `TimingControl`, `TimingControlModel` (class), `TimingLink`, `LaunchTimes` |
| TCUs and synchronization together | `ZeroSkew` |
| measurement registers and feedback credits | `Feedback` (functions and class), `FeedbackRuns` |
| instructions, memory, the sequential specification | `Isa`, `IsaCoding`, `Arithmetic`, `Memory` (functions and class), `Sequential` |
| the pipeline against it | `Pipeline`, `PipelineModel` (class), `PipelineRuns` |
| decoder service | `Decoder`, `DecoderModel` (class), `DecoderEvents`, `DecoderRuns` |
| control electronics | `Resources` (functions and class), `Electronics`, `ElectronicsModel` (classes), `Launches`, `Boundaries`, `BoundaryWork`, `ReadoutRuns`, `ElectronicsRuns`, `DeviceFindings` |
| the device's deliveries at the registers | `DeviceFeedback` |
| backend batching | `Backend` (functions and class) |

Ticks are natural numbers; the 64-bit limit is explicit in `CheckedAdd` and `CheckedMul`. Processor words are bit-vectors
of 32 bits. The backend, the decode function of a decoder, the replies of the control unit and of accessed devices, the
order of edges and the contents of launches are parameters: theorems hold for all of them.

Four findings qualify what one might expect of the code:

- Results of one qubit can become ready in another order than they were measured, because the delay of a discriminator is
  a free parameter of each acquisition. The registers and the execution flags refuse such a result, so the run ends. A
  processor edge faults exactly when it receives a result whose target has an older measurement pending
  (`FeedbackRuns.CpuEdgeFaultsExactlyWhen`), a TCU edge exactly when it takes one that is not newer than its target's last
  (`FeedbackRuns.TcuEdgeFaultsExactlyWhen`). A core meets that fault exactly when the readouts of a target are not ready
  in the order of their measurements (`DeviceFeedback.CoreFaultsExactlyWhen`), which can be read off the launches.
  `DeviceFindings.OvertakingFaults` is such a run, from reset.
- Full queues can make a waiting request late after all, exactly when the queue has just drained, the request's interval
  is a single cycle and the admitted points do not let the timer pause (`TcuRuns.FullQueuesMakeLateExactlyWhen`);
  `TcuFindings.WaitingRequestBecomesLate` is such a run, from reset.
- A boundary of the control electronics is refused exactly when a two-qubit gate whose outputs start there does not have
  one output on each of its inputs; every other guard of a boundary is unreachable
  (`ElectronicsRuns.BoundaryGuardsUnreachable`). `DeviceFindings.MissingOutputIsRefused` is such a run, from reset.
- With zero waits, points may repeat a logical time; each repetition is one more cycle of launch time
  (`LaunchTimes.LaunchTick`). Without them the launch tick is start + T * period plus the synchronization pauses
  (`LaunchTimes.CodewordsLaunchOnTime`).

Assumptions, validated by the source before a run: positive periods, latencies, capacities and durations, targets inside
the register and distinct within an action (`src/profile.cpp` lines 64-155), and connections between different cores with
positive delays (`src/sync.cpp` lines 6-21). Components are stepped on every edge of their clocks. The runs of the control
electronics also assume that launched events and measurements carry identifiers not used before, which the timing control
and the registers issue consecutively (`LaunchTimes.IssuedEventsAreInOnePlace`), and that boundaries are processed in the
order of their ticks (`src/simulator.cpp` line 278); `DeviceFeedback` assumes that a core's acquisitions carry references
which its registers have reserved. Nothing is assumed of the order in which the device delivers. A fault ends the run, so
no theorem speaks of the state after one. Epochs are constant: a run of the model is what happens between two resets.

Verify with `dafny verify dfyconfig.toml`.

## Model

| member | source | states |
|---|---|---|
| Time.CheckedMulIsExact | include/qsbit/time.hpp:23-27 | The overflow guard by division accepts exactly the products that fit 64 bits. |
| Time.AfterIsLatencyThEdge | include/qsbit/time.hpp:36-44 | `after` is an edge strictly after publication with exactly `latency` edges since, and it is refused exactly when that edge does not fit a tick. |
| Time.AfterMonotone | include/qsbit/time.hpp:36-44 | Later publications never arrive earlier. |
| Mailboxes.Link.ArrivalsInOrder | include/qsbit/mailbox.hpp:27-43 | Entries published in order become readable in order, each at the latency-th receiver edge after its publication. |
| Mailboxes.Mailbox.Publish | include/qsbit/mailbox.hpp:27-33 | The new queue, or the capacity, range or order fault with the queue as it was. |
| Mailboxes.Mailbox.Take | include/qsbit/mailbox.hpp:34-43 | Removes exactly the head, and only once it is eligible. |
| Sync.SyncNetwork.PreflightSignal | src/sync.cpp:28-36 | Erases the signals consumed before now and checks connection, edge, capacity and range. |
| Sync.SyncNetwork.SendSignal | src/sync.cpp:37-41 | Appends one signal that arrives a link delay later. |
| Sync.SyncNetwork.ReceiveSignal | src/sync.cpp:42-50 | Consumes the first signal that has arrived and is unconsumed, and no other. |
| Sync.SyncUnit.BookTargets | src/sync.cpp:66-83 | Books at most one target, only when no booking is pending, with the deadline of the outgoing delay. |
| Sync.SyncUnit.Step | src/sync.cpp:84-106 | Consumes one signal of the partner, completes when both deadline and signal are there, pauses after the deadline without it. |
| SyncOrder.EdgesCommute | src/sync.cpp:28-50 | The whole edges of two controllers (step, then booking) commute, faults included. |
| SyncOrder.AnyOrderSameOutcome | src/sync.cpp:28-106 | Any two orders of the same controllers at one edge give the same links and units, and fault together. |
| SyncRuns.MatchedBookingsCompleteTogether | src/sync.cpp:66-106 | In every run the k-th bookings of two neighbors of each other complete on the same edge, max(t1 + d12, t2 + d21). |
| SyncRuns.AnsweredBookingsComplete | src/sync.cpp:84-106 | Once both k-th bookings are made they do complete by that edge. |
| SyncRuns.AtMostTwoSignals | src/sync.cpp:28-50 | No link ever stores more than two signals. |
| SyncRuns.CapacityTwoSuffices | src/sync.cpp:28-36 | From any state of the invariant, links with room for two never raise the capacity fault. |
| SyncRuns.NoRunExceedsCapacityTwo | src/sync.cpp:28-36 | The same from a reset network, for any neighbors, schedule and number of rounds. |
| Protocol.ValidateTimingEvents | src/control_protocol.cpp:53-92 | The loop over the events returns the fault of the first violated rule, in the source's order. |
| Protocol.ValidateIsValidRequest | src/control_protocol.cpp:53-92 | The one-pass check with growing sets and counters accepts exactly the requests that are well-formed by a declarative definition. |
| Protocol.FlagsReflectResults | src/feedback.cpp:96-124 | The conditional flags of a target are exactly the last result, its complement, and the equality of the last two. |
| TcuModel.TcuCycleModel.Step | src/tcu.cpp:22-49 | One edge: all preparations first, then the commits; the new fields are the specification's. |
| TcuModel.TcuCycleModel.TriggerNow | src/tcu.cpp:68-109 | The head's events gathered from the port queues, split by their flags, with every guard. |
| TcuModel.TcuCycleModel.AdmitNow | src/tcu.cpp:110-138 | The due cycle, or that there is no space, or the fault of the first guard. |
| TcuModel.TcuCycleModel.CommitHead | src/tcu.cpp:139-158 | Pops the head and its events from every port queue. |
| TcuModel.TcuCycleModel.CommitRequest | src/tcu.cpp:159-171 | Appends the point and distributes its events to their ports. |
| TcuModel.TcuCycleModel.CloseStream | src/tcu.cpp:202-206 | Closes once, with the last label. |
| TcuModel.TcuCycleModel.IsDrained | src/tcu.cpp:207-211 | Closed with nothing queued. |
| TcuQueues.GatherFindsHead | src/tcu.cpp:78-90 | Gathering at the head's label finds exactly the head's events, as many as its manifest. |
| TcuQueues.SelectSplits | src/tcu.cpp:91-101 | The manifest loop launches the allowed events and cancels the others, both in manifest order. |
| TcuQueues.EveryEventOnce | src/tcu.cpp:91-101 | Launched and cancelled events together are the events, each once. |
| TcuRuns.CycleIsCount | src/tcu.cpp:53-61 | The cycle computed by division is the number of unpaused edges since the start. |
| TcuRuns.DeadlineInCycles | src/tcu.cpp:62-67 | Comparing ticks in the deadline check is comparing cycles. |
| TcuRuns.TriggerIsHead | src/tcu.cpp:68-109 | The guards on a missed firing edge and on manifests are unreachable: an edge fires nothing or exactly the head. |
| TcuRuns.AdvanceKeepsRun | src/tcu.cpp:22-49 | Every edge keeps the invariant, whatever it receives. |
| TcuRuns.RunsKeepInvariant | src/tcu.cpp:22-206 | So does every run of edges and closures. |
| TcuRuns.PointsFireOnTime | src/tcu.cpp:53-77 | The i-th fired point is the i-th admitted one, at start + due * period plus the paused edges so far; each of its events is launched or cancelled once. |
| TcuRuns.QueuesFollowManifests | src/tcu.cpp:139-171 | The port queues are always the waiting points' events split by port in label order, and the head's due cycle is not behind. |
| TcuRuns.FullQueuesMakeLateExactlyWhen | src/tcu.cpp:121-137 | When a request kept waiting by full queues becomes late: if and only if the queue has just drained, its interval is one cycle and the timer may not pause. |
| TcuFindings.WaitingRequestBecomesLate | src/tcu.cpp:121-137 | From reset, with room for one point, a request that arrives in time waits behind it and is refused as late when the queue has drained. |
| TcuRuns.WaitingRequestStaysOnTime | src/tcu.cpp:121-137 | With an interval of at least two a waiting request stays on time over any number of edges. |
| Feedback.MeasurementRegisters.Prepare | src/feedback.cpp:12-28 | Consecutive references for the targets, or the first guard's fault. |
| Feedback.MeasurementRegisters.Commit | src/feedback.cpp:29-51 | Reserves all the references or none. |
| Feedback.MeasurementRegisters.DeliverResult | src/feedback.cpp:57-71 | Writes the register and retires the reservation, only for the oldest pending one of its target. |
| Feedback.MeasurementRegisters.Acknowledge | src/feedback.cpp:72-79 | Returns one fast credit. |
| FeedbackRuns.CpuEdgeFaultsExactlyWhen | src/feedback.cpp:57-79 | A processor edge faults exactly when one of the results it receives is of a target of which an older measurement is still pending; otherwise it delivers all of them and takes back their credits. |
| FeedbackRuns.TcuEdgeFaultsExactlyWhen | src/feedback.cpp:112-124 | A TCU edge faults exactly when a fast result is not newer than the last one of its target; otherwise committing them and publishing their credits fails only out of the tick range. |
| FeedbackRuns.UndeliveredBoundMailboxes | src/feedback.cpp:8-51 | Whatever the order of deliveries, undelivered measurements bound the result, fast-result and credit mailboxes by the result capacity, so no publication overflows; results out of order end the run, and apart from them and reservations only the tick range does. |
| FeedbackRuns.OrderRises | src/feedback.cpp:64-66 | Results that the registers accept, each its target's oldest pending one, never trip the guard of the execution flags. |
| FeedbackRuns.YoungerResultFaults | src/feedback.cpp:57-124 | From reset, a younger result of a qubit delivered first does end the run, at the processor's edge and, once the older one has followed, at the TCU's. |
| FeedbackRuns.ReadIsLatestOutcome | src/feedback.cpp:57-86 | A register reads a value exactly when all its reservations are delivered, and the value is the latest reservation's outcome. |
| DeviceFeedback.IdentifiersRoundTrip | src/simulator.cpp:211-231 | The interleaved identifiers of several cores: a result finds its core and its measurement again. |
| DeviceFeedback.ResultsFollowReadiness | src/simulator.cpp:278-285 | In every run of the device the results that reach a core are exactly its readouts that were ready, each once, ordered by ready tick and, within a tick, by acceptance. |
| DeviceFeedback.DeliveriesAreLegal | src/core.cpp:77-81 | They are of measurements that the core's registers still wait for, as the register runs assume. |
| DeviceFeedback.ResultsInOrderExactlyWhen | src/device/readouts.cpp:45-46 | Each result is of its target's oldest pending measurement if and only if the core's readouts are ready in the order of their measurements. |
| DeviceFeedback.CoreFaultsExactlyWhen | src/feedback.cpp:57-71 | A processor edge that has received everything delivered faults if and only if they are not. |
| DeviceFeedback.ReadyInOrderNeverFaults | src/feedback.cpp:57-124 | Readouts that are ready in order never make an edge of either clock fault. |
| DeviceFindings.OvertakingFaults | src/device/readouts.cpp:45-46 | From reset, two acquisitions of one qubit launched in order, the first with the slower discriminator, are delivered in the other order, and the core's next edge faults. |
| DeviceFindings.OvertakingIsNotInOrder | src/device/readouts.cpp:45-46 | The readouts of that run carry reserved references and are not ready in the order of their measurements. |
| TimingControl.DecodedActions | src/control_protocol.cpp:16-52 | Decoding keeps the actions in order under consecutive identifiers. |
| TimingControlModel.Decode | src/control_protocol.cpp:16-52 | The loops with their sets compute that decoding and its faults. |
| TimingControlModel.TimingControlUnit.Acknowledge | src/timing_control.cpp:23-37 | An awaited acknowledgment empties the staged point; any other faults. |
| TimingControlModel.TimingControlUnit.StageEvents | src/timing_control.cpp:108-149 | A codeword's checks, reservation and staging, all or nothing. |
| TimingControlModel.TimingControlUnit.Submission | src/timing_control.cpp:54-83 | The request built from the staged point, or that there is nothing to wait for. |
| TimingControlModel.TimingControlUnit.ZeroWait | src/timing_control.cpp:84-96 | A zero wait marks the point and blocks until it is acknowledged. |
| TimingControlModel.TimingControlUnit.AdvanceTime | src/timing_control.cpp:97-107 | A wait moves the logical time once the staged point is acknowledged. |
| TimingControlModel.TimingControlUnit.Fetch | src/timing_control.cpp:164-176 | A read blocks until its point is acknowledged and its register has a value. |
| TimingControlModel.TimingControlUnit.Finish | src/timing_control.cpp:177-182 | A halt publishes the closure with the last label, once. |
| TimingControlModel.TimingControlUnit.StageSync | src/timing_control.cpp:183-194 | At most one synchronization for each point, not after submission. |
| TimingControlModel.TimingControlUnit.Execute | src/timing_control.cpp:150-198 | One attempt at an operation; a blocked one must come back unchanged. |
| TimingLink.StagedIsValid | src/timing_control.cpp:54-76 | Whatever was staged makes a request that the validation accepts. |
| TimingLink.ExecuteKeepsControl | src/timing_control.cpp:150-198 | Every operation keeps the invariant of the staged point, the labels and the request in flight. |
| TimingLink.RequestFollows | src/timing_control.cpp:54-83 | The request in flight has the next label and does not repeat a logical time without leave. |
| TimingLink.CandidateIsWelcome | src/tcu.cpp:110-127 | The TCU answers it with no protocol, manifest or capacity fault. |
| TimingLink.TcuStepKeepsLink | src/core.cpp:50-76 | A TCU edge with its mailboxes keeps the link's invariant. |
| TimingLink.PeerGuardsUnreachable | src/core.cpp:42-76 | In every run at most one request or acknowledgment is in flight, and the guards on label order, duplicate times, closure, acknowledgments and full mailboxes cannot fire. |
| TimingLink.WaitsAreNeverRefused | src/timing_control.cpp:84-107 | A wait or halt is never refused, except out of the tick range. |
| LaunchTimes.LaunchTick | src/timing_control.cpp:54-107 | End to end, an event issued at logical time T launches at start + (T + R) * period plus the paused edges, R being the repetitions by zero waits; processor, mailbox and queue delays do not appear. |
| LaunchTimes.CodewordsLaunchOnTime | src/tcu.cpp:53-61 | Without zero waits: start + T * period plus the synchronization pauses. |
| LaunchTimes.IssuedEventsAreInOnePlace | src/timing_control.cpp:133-143 | Every issued event is admitted, staged or in flight, once and in order. |
| ZeroSkew.BookingsAreMadeAtTheirCycles | src/core.cpp:60-67 | Every booking is made by an admitted point that asks for it, at the tick at which that point fires: the tick of its due cycle. |
| ZeroSkew.PointsFireTogether | src/core.cpp:50-76 | Zero skew: once both k-th bookings are made and the later deadline has passed, points due one outgoing delay after them have fired, at the same tick in both cores, if no supply pause lies between; streams may end on the way. |
| Isa.BundleIsTwoCodewords | src/cpu/vliw.cpp:5-20 | A bundle is exactly its two scalar codewords, and illegal exactly when its fixed bits differ. |
| IsaCoding.AssembledDecodes | src/isa.cpp:14-214 | Every instruction of the RV32I listing, assembled by the manual's formats, decodes to its operation, registers and immediate. |
| IsaCoding.DecodedAssembles | src/isa.cpp:14-214 | Every word that decodes to such an instruction is the assembly of what it decodes to, so no two instructions share a word. |
| Arithmetic.ComputedIsNumeric | src/isa.cpp:215-345 | In integers: sums and differences modulo 2^32, left shifts multiply modulo 2^32, logical and arithmetic right shifts divide by a power of two rounding down, and the comparisons compare the unsigned or the two's complement readings. |
| Arithmetic.BranchesCompare | src/isa.cpp:242-259 | Branches are taken exactly when the operands compare so as integers. |
| Arithmetic.SignExtendIsNumeric | src/isa.cpp:6-12 | Sign extension, for the widths of all immediates and narrow loads, reads the low bits in two's complement. |
| Arithmetic.EvaluateIsNumeric | src/isa.cpp:215-347 | Next addresses, access addresses and link values are computed modulo 2^32, and an instruction is refused exactly for system calls and addresses that are no multiple of four. |
| Memory.ReadAfterWrite | src/image.cpp:105-117 | A read returns the low bytes just written, and other addresses are unaffected. |
| Memory.MemoryModel.ServePort | src/memory.cpp:19-57 | One port edge: completes, retries a busy device, or takes one request; the response and the image are the specification's. |
| PipelineModel.IssueAll | src/cpu/pipeline.cpp:65-69 | The lanes of a bundle issued in order until one blocks. |
| PipelineModel.InOrderPipeline.Receive | src/cpu/pipeline.cpp:35-50 | A fetch response fills the latch only for its own generation. |
| PipelineModel.InOrderPipeline.RunFrame | src/cpu/pipeline.cpp:57-111 | One attempt of the execute stage. |
| PipelineModel.InOrderPipeline.RetireFrame | src/cpu/pipeline.cpp:22-32 | The registers and the program counter after an instruction, and the flush. |
| PipelineModel.InOrderPipeline.MoveStages | src/cpu/pipeline.cpp:135-159 | Decode issues into an empty execute stage, the latch moves up. |
| PipelineModel.InOrderPipeline.Step | src/cpu/pipeline.cpp:33-169 | A whole edge, with its ports. |
| PipelineRuns.PipelineRetiresSequentially | src/cpu/pipeline.cpp:33-169 | In every run the retired instructions (address, word, value, next address), the registers and the program counter are the one-instruction interpreter's, and every external effect happens once and in order. |
| PipelineRuns.OnlyTheNextInstructionFaults | src/cpu/pipeline.cpp:33-169 | An edge faults only if the interpreter's next instruction faults whatever it is replied, or its access of the RAM does, or the device it accesses has answered with that error, or the control refuses an operation it issues at this edge, or a tick is out of range: stale and speculative fetches never fault. |
| PipelineRuns.ResponsesAreExpected | src/cpu/pipeline.cpp:35-50 | In every run the guards on fetch responses, the fetch latch, data responses and an undecoded execute stage cannot fire. |
| DecoderModel.DecoderSystem.SubmitPacket | src/decoder.cpp:84-110 | A packet's times on the serialized link, or back-pressure with nothing changed. |
| DecoderModel.DecoderSystem.SubmitReset | src/decoder.cpp:84-110 | A reset command takes the reset slot. |
| DecoderModel.DecoderSystem.ConsumeResult | src/decoder.cpp:57-64 | Clears a ready, quiet session. |
| DecoderModel.DecoderSystem.AdvanceTransmission | src/decoder.cpp:117-140 | An arrived reset erases earlier packets and jobs of its session. |
| DecoderModel.DecoderSystem.AdvanceJobs | src/decoder.cpp:141-161 | Arrived results are folded into their sessions, in order. |
| DecoderModel.DecoderSystem.AdmitRequests | src/decoder.cpp:162-197 | Admits packets until the head blocks. |
| DecoderModel.DecoderSystem.TransmitResult | src/decoder.cpp:198-216 | Sends the completed job that finished first. |
| DecoderModel.EarliestIsNext | src/decoder.cpp:200-205 | The scan's choice is the earliest completed job, lowest identifier first. |
| DecoderModel.DecoderSystem.Step | src/decoder.cpp:111-116 | The four phases in order. |
| DecoderModel.DecoderSystem.NextBoundary | src/decoder.cpp:231-255 | The least future tick of the source's list of boundaries. |
| DecoderEvents.IdleBeforeBoundary | src/decoder.cpp:231-255 | Right after a step, stepping before the next boundary changes nothing. |
| DecoderEvents.PendingJobsHaveBoundary | src/decoder.cpp:246-253 | A pending job always has a boundary. |
| DecoderEvents.BoundariesSuffice | src/decoder.cpp:111-255 | Event-driven stepping equals stepping at every tick, between accesses. |
| DecoderRuns.ShownResultIsAccumulated | src/decoder.cpp:117-197 | A shown result is the XOR of the decoded windows of everything submitted since the last reset command and not yet consumed, so a reset acts at its place in submission order although it overtakes. |
| DecoderRuns.SubmissionsAreConserved | src/decoder.cpp:84-140 | Submissions after a reset are consumed, admitted or queued: none lost, repeated or reordered. |
| DecoderRuns.OneJobPerSubmission | src/decoder.cpp:162-197 | A submitted session owns exactly one job, and held or awaited results never exceed the result capacity. |
| Resources.CheckIsCompatibility | src/device/resources.cpp:42-54 | A launch passes the loop exactly when all reservations with it are pairwise compatible, with distinct identifiers. |
| Resources.PruningIsSound | src/device/resources.cpp:59-61 | In every run the pruned table gives every later launch the verdict of the complete history. |
| Resources.ResourceReservations.CheckLaunch | src/device/resources.cpp:42-54 | The check as a loop with a growing set. |
| Resources.ResourceReservations.Reserve | src/device/resources.cpp:55-58 | Appends all the actions or none. |
| Resources.ResourceReservations.DiscardBefore | src/device/resources.cpp:59-61 | Keeps exactly what has not ended before now. |
| Launches.PreparedFacts | src/device/control_electronics.cpp:29-58 | A prepared launch: valid actions with positive intervals, one readout for each acquisition, none already pending, none before the last boundary. |
| Launches.PreparedIsAccepted | src/device/control_electronics.cpp:60-67 | What prepare approves is accepted: inserting its readouts never finds a duplicate. |
| BoundaryWork.SampledOnce | src/device/control_electronics.cpp:106-109 | Acquisitions that end together have different targets. |
| BoundaryWork.GatesPair | src/device/gates.cpp:30-54 | Pairing gate outputs fails exactly for a gate without one output on each input, and otherwise gives valid gates. |
| BoundaryWork.WorkIsCalls | src/device/control_electronics.cpp:126-147 | A boundary's backend work is its sequence of calls. |
| ElectronicsModel.Readouts.PrepareAll | src/device/readouts.cpp:14-57 | The counting loops compute the readouts and the faults of the specification. |
| ElectronicsModel.Readouts.Insert | src/device/readouts.cpp:58-62 | Adds each readout or faults on a duplicate. |
| ElectronicsModel.Readouts.Sample | src/device/readouts.cpp:63 | Writes each outcome to its readout. |
| ElectronicsModel.Readouts.Deliver | src/device/control_electronics.cpp:169-179 | Delivers and erases what is ready, which must be sampled. |
| ElectronicsModel.ControlElectronics.PrepareLaunch | src/device/control_electronics.cpp:29-58 | All checks of a launch; nothing changes. |
| ElectronicsModel.ControlElectronics.AcceptLaunch | src/device/control_electronics.cpp:60-83 | Reserves, inserts readouts and files starts, ends and results under their ticks. |
| ElectronicsModel.ControlElectronics.PlanBoundary | src/device/control_electronics.cpp:90-124 | All checks of a boundary, before the backend is touched. |
| ElectronicsModel.ControlElectronics.ProcessBoundary | src/device/control_electronics.cpp:84-184 | One boundary in the source's order: evolve, sample, end, apply, start, deliver, prune. |
| ElectronicsModel.ControlElectronics.NextBoundary | src/device/control_electronics.cpp:185-187 | The least tick of the boundary map. |
| ElectronicsModel.ControlElectronics.FinalizeRun | src/device/control_electronics.cpp:188-195 | Evolves to the end and flushes, only when drained. |
| ElectronicsModel.ControlElectronics.Reset | src/device/control_electronics.cpp:196-207 | Drops all device work. |
| ElectronicsRuns.EverythingHappensOnce | src/device/control_electronics.cpp:60-184 | In every run each accepted action starts once at its start and ends once at its end, and each acquisition is sampled once at its end and delivered once when ready. |
| ElectronicsRuns.DeliveredIsMeasured | src/device/control_electronics.cpp:148-179 | A delivered value is the outcome measured for that acquisition. |
| ElectronicsRuns.BoundaryGuardsUnreachable | src/device/control_electronics.cpp:84-184 | The guards on missing active actions, double starts, collisions, unsampled results and replays are unreachable; a boundary is refused exactly for an incomplete two-qubit gate, and otherwise only the backend can fail, and one that answers every batch does not. |
| DeviceFindings.MissingOutputIsRefused | src/device/gates.cpp:30-54 | From reset, a launch with one of the two outputs of a gate is accepted, and the boundary at its start is refused. |
| ElectronicsRuns.ReceiverAcceptsBatches | python/qsbit_backend/protocol.py:67-106 | In every run of the device the batches carry its calls and satisfy the receiver's rules. |
| ElectronicsRuns.DrainedMeansDone | src/device/control_electronics.cpp:185-187 | The device is drained exactly when no boundary is left, and then everything accepted has started, ended and been delivered. |
| ElectronicsRuns.FinalizeExecutesAll | src/device/control_electronics.cpp:188-195 | After finalization the executed batches are the whole stream of calls. |
| Backend.ValidateBatch | python/qsbit_backend/protocol.py:67-106 | The receiver's loop accepts exactly the batches that are valid by a recursive definition. |
| Backend.BatchesCarryTheStream | src/backend.cpp:16-76 | For any batch limit the batches concatenate to the stream of calls, are non-empty and within the limit, and each is valid for the receiver. |
| Backend.LimitsAgree | src/backend.cpp:16-25 | The batch limit does not change what is executed. |
| Backend.BackendExecution.CommitOperation | src/backend.cpp:16-25 | Appends in order of time and flushes at the limit. |
| Backend.BackendExecution.EvolveTo | src/backend.cpp:26-34 | Evolution must cover the next interval. |
| Backend.BackendExecution.Apply | src/backend.cpp:35-40 | Validates every gate before committing. |
| Backend.BackendExecution.MeasureNow | src/backend.cpp:41-53 | A measurement ends and executes its batch. |
| Backend.BackendExecution.ExecutePending | src/backend.cpp:54-76 | Sends the pending operations and checks the number of outcomes. |

## Left out

- Traces: every emitted trace record; histories in the run modules hold the events that the properties need.
- Epochs and stale messages: a run lies between two resets, so the branches that discard messages of an older epoch are not modelled.
- The SystemC kernel and process registration: replaced by sequences of edges in any order that the theorems allow.
- Numerical backends, the Python bridge and floating point: a backend is two arbitrary functions, what it accepts and what it returns for a batch.
- JSON and command-line configuration, profile hashing, ELF loading and runtime discovery: their results are parameters.
- Operation names, amplitudes and axes of actions: actions keep kind, port, targets, resources, delay, duration, flag and gate; two-qubit gates are numbered in the order of their names.
- Memory segments and permissions: RAM is one segment; instruction memory is a constant function, so a store that overwrites code and a fetch from a device are not modelled.
- Memory-mapped staging registers of the decoder (the bit-by-bit assembly of a packet): a submission is one command with its bits.
- Arithmetic.SignExtendIsNumeric: stated for the widths 8, 12, 13, 16 and 21; decoding and loads use no others.
- Numeric meaning of the bitwise operations: `and`, `or` and `xor` have no reading in integers beyond their definition.
- Range exceptions of containers (`at`): modelled as the guard that makes them impossible, or as an invalid operand.
- ElectronicsModel.ControlElectronics.ProcessBoundary: the active actions are a sequence in the order of their identifiers instead of a map, and after a fault the fields are unspecified, because a fault ends the run.
- ElectronicsModel.ControlElectronics.Reset: the reset of the backend itself (its qubits and seed) belongs to the backend.
- ZeroSkew.PointsFireTogether: the processors of the two cores are not part of the machine; what the TCUs receive is arbitrary.
- Protocol.ValidateTimingEvents: the comparison of configurations and the epochs of events are not modelled, because a run has one configuration and one epoch.
- Memory.MemoryModel.ServePort: an instruction request reads the constant code, never a device or the RAM image.
- Backend.ValidateBatch: the rule that references carry the batch's epoch, because epochs are constant.
- PipelineRuns.PipelineRetiresSequentially: external effects of an instruction still in the execute stage may already have happened; they are a prefix of what it will do, which is stated by the equality whenever that stage is empty.
